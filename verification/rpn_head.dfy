/**
 The online inference rules of the region proposal network head. On the online path each
 feature map is flattened to one row per location, the rows are normalised with fixed
 statistics, objectness comes from one classifier per anchor channel (a sentinel for a missing
 classifier), and box deltas come from one ridge regressor per class (zero for a missing one).
 At test time an RPN-only model returns each image's proposals by descending objectness.

 The convolution in front of the head, the classifiers' `predict`, the computation of the
 statistics and the regressors' training are outside this model.
 */
module RpnHead {
  import opened Wrappers
  import opened Ordering

  /** Scale of the normalised features: rows are multiplied by `NormScale / mean_norm`. */
  const NormScale: real := 20.0

  /** Objectness reported at every location for a classifier that is not available. */
  const MissingObjectness: real := -2.0

  /** Number of classes `refine_boxes` produces deltas for; each class has four delta channels. */
  const NumRefineClasses: nat := 15

  /** Errors the online path can raise. */
  datatype Error =
    | ViewMismatch      // a map's shape does not fit the latched height, width and feature size
    | BroadcastMismatch // the mean does not broadcast against the feature rows
    | ZeroDivision      // `mean_norm` is zero
    | RegressorMissing  // fewer than `NumRefineClasses` regressors
    | RegressorShape    // a regressor's weights, `T_inv` or `mu` have the wrong size

  /** Feature size, height and width, latched from the first feature map. */
  datatype Dims = Dims(featSize: nat, height: nat, width: nat)

  /**
   One feature map after the head's convolution. `data` is its content in
   batch/row/column/channel order, i.e. already permuted so that each location's channels are
   contiguous.
   */
  datatype FeatureMap = FeatureMap(batch: nat, channels: nat, height: nat, width: nat, data: seq<real>)

  /** Feature statistics: the per-channel mean and the mean feature norm. */
  datatype Stats = Stats(mean: seq<real>, meanNorm: real)

  /** The `i`-th entry of `v` broadcast against a longer axis: a one-entry `v` repeats. */
  function At(v: seq<real>, i: nat): real
    requires |v| == 1 || i < |v|
  {
    if |v| == 1 then v[0] else v[i]
  }

  /** `v` broadcasts against an axis of length `n`. */
  predicate Broadcasts(v: seq<real>, n: nat) {
    |v| == n || |v| == 1
  }

  // ---------------------------------------------------------------- latching

  /** The latch: dimensions are taken from `m` only while nothing has been latched yet. */
  function Latch(state: Option<Dims>, m: FeatureMap): (r: Option<Dims>)
    ensures r.Some?
    ensures state.Some? ==> r == state
    ensures state.None? ==> r.value.featSize == m.channels && r.value.height == m.height && r.value.width == m.width
  {
    if state.None? then Some(Dims(m.channels, m.height, m.width)) else state
  }

  /** The latch applied to every map in turn. */
  function LatchAll(state: Option<Dims>, maps: seq<FeatureMap>): Option<Dims>
    decreases |maps|
  {
    if |maps| == 0 then state else LatchAll(Latch(state, maps[0]), maps[1..])
  }

  /**
   After a run over maps, the latched dimensions are those of the first map ever seen: an
   existing latch is never overwritten, and an empty latch takes the first map's dimensions.
   */
  lemma {:induction false} LatchAllKeepsFirst(state: Option<Dims>, maps: seq<FeatureMap>)
    ensures state.Some? ==> LatchAll(state, maps) == state
    ensures state.None? && |maps| > 0 ==>
              LatchAll(state, maps) == Some(Dims(maps[0].channels, maps[0].height, maps[0].width))
    decreases |maps|
  {
    if |maps| > 0 {
      LatchAllKeepsFirst(Latch(state, maps[0]), maps[1..]);
    }
  }

  // ---------------------------------------------------------------- flattening

  /** `data` cut into `n` consecutive rows of `f` values: the `view(n, f)` of a flat tensor. */
  function Chunk(data: seq<real>, n: nat, f: nat): (rows: seq<seq<real>>)
    requires |data| == n * f
    ensures |rows| == n
    ensures forall l :: 0 <= l < n ==> |rows[l]| == f
    decreases n
  {
    if n == 0 then []
    else
      assert n * f == f + (n - 1) * f;
      [data[..f]] + Chunk(data[f..], n - 1, f)
  }

  /** Value `c` of row `l` of the view is entry `l * f + c` of the flat data, as in row-major layout. */
  lemma {:induction false} ChunkAt(data: seq<real>, n: nat, f: nat, l: nat, c: nat)
    requires |data| == n * f
    requires l < n && c < f
    ensures l * f + c < |data|
    ensures Chunk(data, n, f)[l][c] == data[l * f + c]
    decreases n
  {
    RowOffsets(n, f, l, c);
    if l > 0 {
      ChunkAt(data[f..], n - 1, f, l - 1, c);
    }
  }

  /** The offsets of row-major layout: entry `c` of row `l` lies inside the data, one row past row `l - 1`'s. */
  lemma RowOffsets(n: nat, f: nat, l: nat, c: nat)
    requires l < n && c < f
    ensures n * f == f + (n - 1) * f
    ensures l * f + c < n * f
    ensures 0 < l ==> l * f + c == f + ((l - 1) * f + c)
  {
    assert l * f <= (n - 1) * f;
  }

  /** Rows laid end to end. */
  function Flatten(rows: seq<seq<real>>): (data: seq<real>)
    decreases |rows|
  {
    if |rows| == 0 then [] else rows[0] + Flatten(rows[1..])
  }

  /** Cutting a flat tensor into rows loses and reorders nothing: flattening the rows gives it back. */
  lemma {:induction false} FlattenChunk(data: seq<real>, n: nat, f: nat)
    requires |data| == n * f
    ensures Flatten(Chunk(data, n, f)) == data
    decreases n
  {
    if n > 0 {
      assert n * f == f + (n - 1) * f;
      var rows := Chunk(data, n, f);
      assert rows[1..] == Chunk(data[f..], n - 1, f);
      FlattenChunk(data[f..], n - 1, f);
      assert data == data[..f] + data[f..];
    }
  }

  /** Conversely, rows of equal width are recovered by cutting their concatenation. */
  lemma {:induction false} ChunkFlatten(rows: seq<seq<real>>, f: nat)
    requires forall l :: 0 <= l < |rows| ==> |rows[l]| == f
    ensures |Flatten(rows)| == |rows| * f
    ensures Chunk(Flatten(rows), |rows|, f) == rows
    decreases |rows|
  {
    if |rows| > 0 {
      var n := |rows|;
      ChunkFlatten(rows[1..], f);
      assert n * f == f + (n - 1) * f;
      var data := Flatten(rows);
      assert data == rows[0] + Flatten(rows[1..]);
      assert data[..f] == rows[0];
      assert data[f..] == Flatten(rows[1..]);
      assert rows == [rows[0]] + rows[1..];
    }
  }

  // ---------------------------------------------------------------- normalisation

  /** The online normalisation of one feature row: subtract the mean, then scale by `20 / mean_norm`. */
  function Normalize(stats: Stats, x: seq<real>): (y: seq<real>)
    requires Broadcasts(stats.mean, |x|) && stats.meanNorm != 0.0
    ensures |y| == |x|
    ensures forall c :: 0 <= c < |x| ==> y[c] * stats.meanNorm == (x[c] - At(stats.mean, c)) * NormScale
  {
    seq(|x|, c requires 0 <= c < |x| => (x[c] - At(stats.mean, c)) * (NormScale / stats.meanNorm))
  }

  /** The inverse transform: undo the scaling, then add the mean back. */
  function Denormalize(stats: Stats, y: seq<real>): (x: seq<real>)
    requires Broadcasts(stats.mean, |y|) && stats.meanNorm != 0.0
    ensures |x| == |y|
  {
    seq(|y|, c requires 0 <= c < |y| => y[c] / (NormScale / stats.meanNorm) + At(stats.mean, c))
  }

  /** Normalisation is invertible: denormalising a normalised row gives the row back. */
  lemma DenormalizeNormalize(stats: Stats, x: seq<real>)
    requires Broadcasts(stats.mean, |x|) && stats.meanNorm != 0.0
    ensures Denormalize(stats, Normalize(stats, x)) == x
  {
    var s := NormScale / stats.meanNorm;
    assert s != 0.0;
    var y := Normalize(stats, x);
    forall c | 0 <= c < |x|
      ensures Denormalize(stats, y)[c] == x[c]
    {
      assert y[c] == (x[c] - At(stats.mean, c)) * s;
      assert y[c] / s == x[c] - At(stats.mean, c);
    }
  }

  /** ... and normalising a denormalised row gives that row back. */
  lemma NormalizeDenormalize(stats: Stats, y: seq<real>)
    requires Broadcasts(stats.mean, |y|) && stats.meanNorm != 0.0
    ensures Normalize(stats, Denormalize(stats, y)) == y
  {
    var s := NormScale / stats.meanNorm;
    assert s != 0.0;
    var x := Denormalize(stats, y);
    forall c | 0 <= c < |y|
      ensures Normalize(stats, x)[c] == y[c]
    {
      assert x[c] - At(stats.mean, c) == y[c] / s;
      assert (y[c] / s) * s == y[c];
    }
  }

  /** A row equal to the mean normalises to zero. */
  lemma NormalizeMean(stats: Stats, f: nat)
    requires |stats.mean| == f && stats.meanNorm != 0.0
    ensures Normalize(stats, stats.mean) == seq(f, _ => 0.0)
  {
    forall c | 0 <= c < f
      ensures Normalize(stats, stats.mean)[c] == 0.0
    {
      assert At(stats.mean, c) == stats.mean[c];
    }
  }

  /** Every row normalised. */
  function NormalizeRows(stats: Stats, rows: seq<seq<real>>, f: nat): (r: seq<seq<real>>)
    requires forall l :: 0 <= l < |rows| ==> |rows[l]| == f
    requires Broadcasts(stats.mean, f) && stats.meanNorm != 0.0
    ensures |r| == |rows|
    ensures forall l :: 0 <= l < |r| ==> |r[l]| == f
  {
    seq(|rows|, l requires 0 <= l < |rows| => Normalize(stats, rows[l]))
  }

  // ---------------------------------------------------------------- objectness

  /** One objectness channel: the classifier's prediction at every location, or the sentinel. */
  function ObjectnessChannel<M>(classifier: Option<M>, predict: (M, seq<real>) -> real, rows: seq<seq<real>>): (ch: seq<real>)
    ensures |ch| == |rows|
  {
    seq(|rows|, l requires 0 <= l < |rows| =>
          if classifier.None? then MissingObjectness else predict(classifier.value, rows[l]))
  }

  /**
   `compute_objectness_FALKON`: channels appended one classifier at a time, in list order. The
   result has one channel per classifier; channel `i` at location `l` is classifier `i`'s
   prediction for row `l`, or -2 when classifier `i` is missing.
   */
  function Objectness<M>(classifiers: seq<Option<M>>, predict: (M, seq<real>) -> real, rows: seq<seq<real>>): (r: seq<seq<real>>)
    ensures |r| == |classifiers|
    ensures forall i :: 0 <= i < |r| ==> |r[i]| == |rows|
    ensures forall i, l :: 0 <= i < |r| && 0 <= l < |rows| && classifiers[i].None? ==> r[i][l] == MissingObjectness
    ensures forall i, l :: 0 <= i < |r| && 0 <= l < |rows| && classifiers[i].Some? ==>
              r[i][l] == predict(classifiers[i].value, rows[l])
    decreases |classifiers|
  {
    if |classifiers| == 0 then []
    else
      var n := |classifiers| - 1;
      Objectness(classifiers[..n], predict, rows) + [ObjectnessChannel(classifiers[n], predict, rows)]
  }

  /** Classifier lists are handled independently: the channels of a concatenation are concatenated. */
  lemma ObjectnessConcat<M>(xs: seq<Option<M>>, ys: seq<Option<M>>, predict: (M, seq<real>) -> real, rows: seq<seq<real>>)
    ensures Objectness(xs + ys, predict, rows) == Objectness(xs, predict, rows) + Objectness(ys, predict, rows)
  {
    var lhs := Objectness(xs + ys, predict, rows);
    var rhs := Objectness(xs, predict, rows) + Objectness(ys, predict, rows);
    forall i | 0 <= i < |lhs|
      ensures lhs[i] == rhs[i]
    {
      var c := (xs + ys)[i];
      if i >= |xs| {
        assert c == ys[i - |xs|];
      }
      assert |lhs[i]| == |rhs[i]| == |rows|;
      forall l | 0 <= l < |rows|
        ensures lhs[i][l] == rhs[i][l]
      {
        var side := if i < |xs| then Objectness(xs, predict, rows)[i] else Objectness(ys, predict, rows)[i - |xs|];
        assert rhs[i] == side;
        assert side[l] == ObjectnessChannel(c, predict, rows)[l];
      }
    }
  }

  // ---------------------------------------------------------------- box refinement

  /**
   A class's RLS regressor, or `NoBeta` when none was trained. `beta[k]` holds the weights
   of coordinate `k` (one per feature, then the bias); `tInv` is the 4×4 output transform and
   `mu` the output offset.
   */
  datatype Regressor =
    | NoBeta
    | Rls(beta: seq<seq<real>>, tInv: seq<seq<real>>, mu: seq<real>)

  /** A regressor's parts have the sizes the computation for `f` features needs. */
  predicate RlsShaped(reg: Regressor, f: nat)
    requires reg.Rls?
  {
    && |reg.beta| >= 4
    && (forall k :: 0 <= k < 4 ==> |reg.beta[k]| == f + 1)
    && |reg.tInv| == 4
    && (forall k :: 0 <= k < 4 ==> |reg.tInv[k]| == 4)
    && Broadcasts(reg.mu, 4)
  }

  /** Regressor `reg` can be applied to rows of `f` features. */
  predicate Usable(reg: Regressor, f: nat) {
    reg.Rls? ==> RlsShaped(reg, f)
  }

  /** Inner product. */
  function Dot(u: seq<real>, v: seq<real>): real
    requires |u| == |v|
    decreases |u|
  {
    if |u| == 0 then 0.0 else Dot(u[..|u| - 1], v[..|v| - 1]) + u[|u| - 1] * v[|v| - 1]
  }

  /** Against the zero vector every inner product vanishes. */
  lemma {:induction false} DotZero(u: seq<real>, v: seq<real>)
    requires |u| == |v|
    requires forall i :: 0 <= i < |u| ==> u[i] == 0.0
    ensures Dot(u, v) == 0.0
    decreases |u|
  {
    if |u| > 0 {
      DotZero(u[..|u| - 1], v[..|v| - 1]);
    }
  }

  /** The inner product of two four-vectors, written out. */
  lemma Dot4(u: seq<real>, v: seq<real>)
    requires |u| == 4 && |v| == 4
    ensures Dot(u, v) == u[0] * v[0] + u[1] * v[1] + u[2] * v[2] + u[3] * v[3]
  {
    assert Dot(u[..1], v[..1]) == u[0] * v[0] by {
      assert u[..1][..0] == [];
    }
    assert Dot(u[..2], v[..2]) == Dot(u[..1], v[..1]) + u[1] * v[1] by {
      assert u[..2][..1] == u[..1] && v[..2][..1] == v[..1];
    }
    assert Dot(u[..3], v[..3]) == Dot(u[..2], v[..2]) + u[2] * v[2] by {
      assert u[..3][..2] == u[..2] && v[..3][..2] == v[..2];
    }
    assert u[..4] == u && v[..4] == v;
  }

  /** One coordinate of `x·W[:-1] + W[-1]`: the feature weights, then the bias (the last weight). */
  function Affine(w: seq<real>, x: seq<real>): real
    requires |w| == |x| + 1
  {
    Dot(x, w[..|x|]) + w[|x|]
  }

  /** Column `m` of a 4×4 matrix. */
  function Column(t: seq<seq<real>>, m: nat): (col: seq<real>)
    requires |t| == 4 && forall k :: 0 <= k < 4 ==> |t[k]| == 4
    requires m < 4
    ensures |col| == 4
  {
    seq(4, k requires 0 <= k < 4 => t[k][m])
  }

  /** The ridge output before the output transform: `x·W[:-1] + W[-1]`. */
  function Raw(reg: Regressor, x: seq<real>): (y: seq<real>)
    requires reg.Rls? && RlsShaped(reg, |x|)
    ensures |y| == 4
    ensures forall k :: 0 <= k < 4 ==> y[k] == Affine(reg.beta[k], x)
  {
    seq(4, k requires 0 <= k < 4 => Affine(reg.beta[k], x))
  }

  /** The four deltas of one location: `(x·W[:-1] + W[-1])·T_inv + mu`, or zero without a regressor. */
  function Delta(reg: Regressor, x: seq<real>): (r: seq<real>)
    requires Usable(reg, |x|)
    ensures |r| == 4
    ensures reg.NoBeta? ==> forall m :: 0 <= m < 4 ==> r[m] == 0.0
  {
    if reg.NoBeta? then seq(4, _ => 0.0)
    else
      var y := Raw(reg, x);
      seq(4, m requires 0 <= m < 4 => Dot(y, Column(reg.tInv, m)) + At(reg.mu, m))
  }

  /** With a trained regressor, delta `m` is the ridge output times column `m` of `T_inv`, plus `mu[m]`, written out. */
  lemma DeltaFormula(reg: Regressor, x: seq<real>)
    requires Usable(reg, |x|) && reg.Rls?
    ensures forall m :: 0 <= m < 4 ==>
              Delta(reg, x)[m] == Affine(reg.beta[0], x) * reg.tInv[0][m] + Affine(reg.beta[1], x) * reg.tInv[1][m]
                                  + Affine(reg.beta[2], x) * reg.tInv[2][m] + Affine(reg.beta[3], x) * reg.tInv[3][m]
                                  + At(reg.mu, m)
  {
    var y := Raw(reg, x);
    forall m | 0 <= m < 4
      ensures Dot(y, Column(reg.tInv, m)) == y[0] * reg.tInv[0][m] + y[1] * reg.tInv[1][m]
                                             + y[2] * reg.tInv[2][m] + y[3] * reg.tInv[3][m]
    {
      Dot4(y, Column(reg.tInv, m));
    }
  }

  /** The bias is the last weight of each coordinate: at the zero feature vector only it remains. */
  lemma DeltaAtZero(reg: Regressor, f: nat)
    requires reg.Rls? && RlsShaped(reg, f)
    ensures var zero := seq(f, _ => 0.0);
            Raw(reg, zero) == seq(4, k requires 0 <= k < 4 => reg.beta[k][f])
  {
    var zero := seq(f, _ => 0.0);
    forall k | 0 <= k < 4
      ensures Affine(reg.beta[k], zero) == reg.beta[k][f]
    {
      DotZero(zero, reg.beta[k][..f]);
    }
  }

  /** With the identity transform and no offset, the deltas are the ridge output itself. */
  lemma DeltaIdentityTransform(reg: Regressor, x: seq<real>)
    requires reg.Rls? && RlsShaped(reg, |x|)
    requires forall k, m :: 0 <= k < 4 && 0 <= m < 4 ==>
               reg.tInv[k][m] == if k == m then 1.0 else 0.0
    requires forall m :: 0 <= m < |reg.mu| ==> reg.mu[m] == 0.0
    ensures Delta(reg, x) == Raw(reg, x)
  {
    var y := Raw(reg, x);
    forall m | 0 <= m < 4
      ensures Delta(reg, x)[m] == y[m]
    {
      var col := Column(reg.tInv, m);
      Dot4(y, col);
      assert At(reg.mu, m) == 0.0;
    }
  }

  /** The four delta channels of one class, location by location. */
  function DeltaChannels(reg: Regressor, rows: seq<seq<real>>, f: nat): (chs: seq<seq<real>>)
    requires forall l :: 0 <= l < |rows| ==> |rows[l]| == f
    requires Usable(reg, f)
    ensures |chs| == 4
    ensures forall k :: 0 <= k < 4 ==> |chs[k]| == |rows|
    ensures forall k, l :: 0 <= k < 4 && 0 <= l < |rows| ==> chs[k][l] == Delta(reg, rows[l])[k]
  {
    seq(4, k requires 0 <= k < 4 =>
          seq(|rows|, l requires 0 <= l < |rows| => Delta(reg, rows[l])[k]))
  }

  /** All regressors of classes `0 .. upTo - 1` exist and can be applied to `f` features. */
  predicate RegressorsUsable(regs: seq<Regressor>, f: nat, upTo: nat) {
    upTo <= |regs| && forall j :: 0 <= j < upTo ==> Usable(regs[j], f)
  }

  /** The error `refine_boxes` raises first when processing classes `0 .. upTo - 1` in order. */
  function RefineError(regs: seq<Regressor>, f: nat, upTo: nat): Error
    requires !RegressorsUsable(regs, f, upTo)
    decreases upTo
  {
    var j := upTo - 1;
    if !RegressorsUsable(regs, f, j) then RefineError(regs, f, j)
    else if j >= |regs| then RegressorMissing
    else RegressorShape
  }

  /**
   The channel layout of `refine_boxes` for classes `0 .. upTo - 1`: four channels per class
   in class order, each holding one value per location; channel `4j + k` at location `l` is
   coordinate `k` of class `j`'s delta for row `l`.
   */
  ghost predicate Layout(chs: seq<seq<real>>, regs: seq<Regressor>, rows: seq<seq<real>>, f: nat, upTo: nat)
    requires forall l :: 0 <= l < |rows| ==> |rows[l]| == f
    requires RegressorsUsable(regs, f, upTo)
  {
    && |chs| == 4 * upTo
    && (forall c :: 0 <= c < |chs| ==> |chs[c]| == |rows|)
    && forall j, k, l :: 0 <= j < upTo && 0 <= k < 4 && 0 <= l < |rows| ==>
         chs[4 * j + k][l] == Delta(regs[j], rows[l])[k]
  }

  /**
   `refine_boxes` over classes `0 .. upTo - 1`: four channels per class appended in class
   order. It succeeds exactly when every one of those regressors exists and has usable
   weights, and then the channels follow the layout above.
   */
  function Refine(regs: seq<Regressor>, rows: seq<seq<real>>, f: nat, upTo: nat): (r: Result<seq<seq<real>>, Error>)
    requires forall l :: 0 <= l < |rows| ==> |rows[l]| == f
    ensures r.Ok? <==> RegressorsUsable(regs, f, upTo)
    ensures r.Err? ==> r.error == RefineError(regs, f, upTo)
    ensures r.Ok? ==> Layout(r.value, regs, rows, f, upTo)
    decreases upTo
  {
    if upTo == 0 then Ok([])
    else
      var j := upTo - 1;
      var prev := Refine(regs, rows, f, j);
      if prev.Err? then Err(prev.error)
      else if j >= |regs| then Err(RegressorMissing)
      else if !Usable(regs[j], f) then Err(RegressorShape)
      else
        var chs := DeltaChannels(regs[j], rows, f);
        LayoutAppend(prev.value, chs, regs, rows, f, j);
        Ok(prev.value + chs)
  }

  /** Appending class `j`'s four channels extends the channel layout by one class. */
  lemma LayoutAppend(prev: seq<seq<real>>, chs: seq<seq<real>>, regs: seq<Regressor>, rows: seq<seq<real>>, f: nat, j: nat)
    requires forall l :: 0 <= l < |rows| ==> |rows[l]| == f
    requires RegressorsUsable(regs, f, j + 1)
    requires Layout(prev, regs, rows, f, j)
    requires |chs| == 4
    requires forall k :: 0 <= k < 4 ==> |chs[k]| == |rows|
    requires forall k, l :: 0 <= k < 4 && 0 <= l < |rows| ==> chs[k][l] == Delta(regs[j], rows[l])[k]
    ensures Layout(prev + chs, regs, rows, f, j + 1)
  {
    var all := prev + chs;
    forall c | 0 <= c < |all|
      ensures |all[c]| == |rows|
    {
      if c >= |prev| {
        assert all[c] == chs[c - |prev|];
      } else {
        assert all[c] == prev[c];
      }
    }
    forall i, k, l | 0 <= i < j + 1 && 0 <= k < 4 && 0 <= l < |rows|
      ensures all[4 * i + k][l] == Delta(regs[i], rows[l])[k]
    {
      if i < j {
        assert all[4 * i + k] == prev[4 * i + k];
      } else {
        assert all[4 * i + k] == chs[k];
      }
    }
  }

  /** `refine_boxes`: the fixed number of classes, always `4 * 15` channels when it succeeds. */
  function RefineBoxes(regs: seq<Regressor>, rows: seq<seq<real>>, f: nat): (r: Result<seq<seq<real>>, Error>)
    requires forall l :: 0 <= l < |rows| ==> |rows[l]| == f
    ensures r.Ok? ==> |r.value| == 4 * NumRefineClasses
  {
    Refine(regs, rows, f, NumRefineClasses)
  }

  /** A class without a regressor contributes four all-zero channels. */
  lemma MissingRegressorGivesZero(regs: seq<Regressor>, rows: seq<seq<real>>, f: nat, j: nat, k: nat, l: nat)
    requires forall l :: 0 <= l < |rows| ==> |rows[l]| == f
    requires RefineBoxes(regs, rows, f).Ok?
    requires j < NumRefineClasses && k < 4 && l < |rows| && regs[j].NoBeta?
    ensures RefineBoxes(regs, rows, f).value[4 * j + k][l] == 0.0
  {
    var chs := RefineBoxes(regs, rows, f).value;
    assert Layout(chs, regs, rows, f, NumRefineClasses);
    assert chs[4 * j + k][l] == Delta(regs[j], rows[l])[k];
  }

  // ---------------------------------------------------------------- head forward

  /** The head's output for one feature map: objectness channels and box-delta channels. */
  datatype Level = Level(logits: seq<seq<real>>, bboxReg: seq<seq<real>>)

  /** The online head components. */
  datatype Online<!M> = Online(
    classifiers: seq<Option<M>>, predict: (M, seq<real>) -> real, regressors: seq<Regressor>, stats: Stats)

  /**
   Viewing the permuted `(batch, height, width, channels)` map as `height * width` rows of
   `feat_size` values: one image, whose channels are the latched feature size and whose
   locations number as many as the latched ones, with the data to match.
   */
  predicate ViewFits(dims: Dims, m: FeatureMap) {
    && m.batch == 1
    && m.channels == dims.featSize
    && m.height * m.width == dims.height * dims.width
    && |m.data| == dims.height * dims.width * dims.featSize
  }

  /** The normalised rows of one map under latched dimensions `dims`, or the error raised on the way. */
  function Features<M>(dims: Dims, m: FeatureMap, head: Online<M>): (r: Result<seq<seq<real>>, Error>)
    ensures r.Ok? <==> (ViewFits(dims, m)
                        && Broadcasts(head.stats.mean, dims.featSize) && head.stats.meanNorm != 0.0)
    ensures r.Ok? ==> |r.value| == dims.height * dims.width
                      && forall l :: 0 <= l < |r.value| ==> |r.value[l]| == dims.featSize
    ensures r.Ok? ==> forall l :: 0 <= l < |r.value| ==>
              Denormalize(head.stats, r.value[l]) == Chunk(m.data, dims.height * dims.width, dims.featSize)[l]
  {
    var n, f := dims.height * dims.width, dims.featSize;
    if !ViewFits(dims, m) then Err(ViewMismatch)
    else if !Broadcasts(head.stats.mean, f) then Err(BroadcastMismatch)
    else if head.stats.meanNorm == 0.0 then Err(ZeroDivision)
    else
      var rows := Chunk(m.data, n, f);
      var r := NormalizeRows(head.stats, rows, f);
      assert forall l :: 0 <= l < |r| ==> Denormalize(head.stats, r[l]) == rows[l] by {
        forall l | 0 <= l < |r|
          ensures Denormalize(head.stats, r[l]) == rows[l]
        {
          DenormalizeNormalize(head.stats, rows[l]);
        }
      }
      Ok(r)
  }

  /** A map holding more than one image, or channels other than the latched feature size, is refused by the view. */
  lemma ViewRefusesOtherShapes<M>(dims: Dims, m: FeatureMap, head: Online<M>)
    requires m.batch != 1 || m.channels != dims.featSize
    ensures Features(dims, m, head) == Err(ViewMismatch)
  {
  }

  /** One map through the online path: flatten, normalise, score objectness, refine boxes. */
  function LevelForward<M>(dims: Dims, m: FeatureMap, head: Online<M>): (r: Result<Level, Error>)
    ensures r.Ok? <==> Features(dims, m, head).Ok? && RegressorsUsable(head.regressors, dims.featSize, NumRefineClasses)
    ensures r.Ok? ==> |r.value.logits| == |head.classifiers|
                      && |r.value.bboxReg| == 4 * NumRefineClasses
  {
    var feats := Features(dims, m, head);
    if feats.Err? then Err(feats.error)
    else
      var t := feats.value;
      var logits := Objectness(head.classifiers, head.predict, t);
      var reg := RefineBoxes(head.regressors, t, dims.featSize);
      if reg.Err? then Err(reg.error) else Ok(Level(logits, reg.value))
  }

  /**
   One pass over the maps in order, latching dimensions before each and applying `step` to the
   map under them. It returns the state afterwards together with the outputs, or the first
   error; the latch is a side effect that survives an error.
   */
  function Pass<L>(state: Option<Dims>, maps: seq<FeatureMap>, step: (Dims, FeatureMap) -> Result<L, Error>): (r: (Option<Dims>, Result<seq<L>, Error>))
    ensures r.1.Ok? ==> |r.1.value| == |maps|
    decreases |maps|
  {
    if |maps| == 0 then (state, Ok([]))
    else
      var s := Latch(state, maps[0]);
      var out := step(s.value, maps[0]);
      if out.Err? then (s, Err(out.error))
      else
        var (s', rest) := Pass(s, maps[1..], step);
        (s', if rest.Err? then rest else Ok([out.value] + rest.value))
  }

  /** The step of the online path: one map's online output under the latched dimensions. */
  function OnlineStep<M>(head: Online<M>): (Dims, FeatureMap) -> Result<Level, Error> {
    (d: Dims, m: FeatureMap) => LevelForward(d, m, head)
  }

  /** `RPNHead.forward` on the online path: a pass whose step is `OnlineStep`. */
  function HeadForward<M>(state: Option<Dims>, maps: seq<FeatureMap>, head: Online<M>): (r: (Option<Dims>, Result<seq<Level>, Error>))
    ensures r.1.Ok? ==> |r.1.value| == |maps|
  {
    Pass(state, maps, OnlineStep(head))
  }

  lemma {:induction false} PassState<L>(state: Option<Dims>, maps: seq<FeatureMap>, step: (Dims, FeatureMap) -> Result<L, Error>)
    ensures Pass(state, maps, step).0 == LatchAll(state, maps)
    decreases |maps|
  {
    if |maps| > 0 {
      var s := Latch(state, maps[0]);
      if step(s.value, maps[0]).Err? {
        LatchAllKeepsFirst(s, maps[1..]);
      } else {
        PassState(s, maps[1..], step);
      }
    }
  }

  /** Whatever happens, the state after a forward pass is the latch over all its maps. */
  lemma HeadForwardState<M>(state: Option<Dims>, maps: seq<FeatureMap>, head: Online<M>)
    ensures HeadForward(state, maps, head).0 == LatchAll(state, maps)
  {
    PassState(state, maps, OnlineStep(head));
  }

  lemma {:induction false} PassUsesLatch<L>(state: Option<Dims>, maps: seq<FeatureMap>, step: (Dims, FeatureMap) -> Result<L, Error>, i: nat)
    requires Pass(state, maps, step).1.Ok? && i < |maps|
    ensures step(Latch(state, maps[0]).value, maps[i]) == Ok(Pass(state, maps, step).1.value[i])
    decreases |maps|
  {
    var s := Latch(state, maps[0]);
    if i > 0 {
      PassUsesLatch(s, maps[1..], step, i - 1);
      assert Latch(s, maps[1..][0]) == s;
    }
  }

  /**
   Every map is processed with the same dimensions: those already latched, or else the first
   map's. A successful pass yields, for map `i`, exactly that map's online output under them.
   */
  lemma HeadForwardUsesLatch<M>(state: Option<Dims>, maps: seq<FeatureMap>, head: Online<M>, i: nat)
    requires HeadForward(state, maps, head).1.Ok? && i < |maps|
    ensures LevelForward(Latch(state, maps[0]).value, maps[i], head) == Ok(HeadForward(state, maps, head).1.value[i])
  {
    PassUsesLatch(state, maps, OnlineStep(head), i);
  }

  lemma {:induction false} PassFirstError<L>(state: Option<Dims>, maps: seq<FeatureMap>, step: (Dims, FeatureMap) -> Result<L, Error>, i: nat)
    requires i < |maps|
    requires forall e :: 0 <= e < i ==> step(Latch(state, maps[0]).value, maps[e]).Ok?
    requires step(Latch(state, maps[0]).value, maps[i]).Err?
    ensures Pass(state, maps, step).1 == Err(step(Latch(state, maps[0]).value, maps[i]).error)
    decreases |maps|
  {
    var s := Latch(state, maps[0]);
    if i > 0 {
      var rest := maps[1..];
      assert Latch(s, rest[0]) == s;
      assert forall e :: 0 <= e < i - 1 ==> rest[e] == maps[e + 1];
      PassFirstError(s, rest, step, i - 1);
    }
  }

  /**
   A pass fails at the first map that fails: if every earlier map succeeds under the dimensions
   latched before the pass or from the first map, and map `i` fails under them, the pass raises
   map `i`'s error.
   */
  lemma HeadForwardFirstError<M>(state: Option<Dims>, maps: seq<FeatureMap>, head: Online<M>, i: nat)
    requires i < |maps|
    requires forall e :: 0 <= e < i ==> LevelForward(Latch(state, maps[0]).value, maps[e], head).Ok?
    requires LevelForward(Latch(state, maps[0]).value, maps[i], head).Err?
    ensures HeadForward(state, maps, head).1 == Err(LevelForward(Latch(state, maps[0]).value, maps[i], head).error)
  {
    PassFirstError(state, maps, OnlineStep(head), i);
  }

  lemma {:induction false} PassSucceeds<L>(state: Option<Dims>, maps: seq<FeatureMap>, step: (Dims, FeatureMap) -> Result<L, Error>)
    requires forall e :: 0 <= e < |maps| ==> step(Latch(state, maps[0]).value, maps[e]).Ok?
    ensures Pass(state, maps, step).1.Ok?
    decreases |maps|
  {
    if |maps| > 0 {
      var s := Latch(state, maps[0]);
      var rest := maps[1..];
      if |rest| > 0 {
        assert Latch(s, rest[0]) == s;
        assert forall e :: 0 <= e < |rest| ==> rest[e] == maps[e + 1];
      }
      PassSucceeds(s, rest, step);
    }
  }

  /** Conversely, a pass succeeds when every map succeeds under the latched dimensions. */
  lemma HeadForwardSucceeds<M>(state: Option<Dims>, maps: seq<FeatureMap>, head: Online<M>)
    requires forall e :: 0 <= e < |maps| ==> LevelForward(Latch(state, maps[0]).value, maps[e], head).Ok?
    ensures HeadForward(state, maps, head).1.Ok?
  {
    PassSucceeds(state, maps, OnlineStep(head));
  }

  // ---------------------------------------------------------------- RPN-only ordering

  /** A proposal box with its objectness. */
  datatype Proposal<B> = Proposal(box: B, objectness: real)

  function NegObjectness<B>(p: Proposal<B>): real { -p.objectness }

  /** One image's proposals reordered by descending objectness. */
  function ByObjectness<B>(proposals: seq<Proposal<B>>): (r: seq<Proposal<B>>)
    ensures multiset(r) == multiset(proposals)
    ensures |r| == |proposals|
    ensures forall a, b :: 0 <= a < b < |r| ==> r[a].objectness >= r[b].objectness
  {
    var r := Sort(proposals, NegObjectness);
    assert |r| == |multiset(r)| == |proposals|;
    assert forall a, b :: 0 <= a < b < |r| ==> NegObjectness(r[a]) <= NegObjectness(r[b]);
    r
  }

  /** The `RPN_ONLY` test output: every image's proposals by descending objectness, images in order. */
  function RpnOnlyOrder<B>(images: seq<seq<Proposal<B>>>): (r: seq<seq<Proposal<B>>>)
    ensures |r| == |images|
    ensures forall i :: 0 <= i < |r| ==> multiset(r[i]) == multiset(images[i])
    ensures forall i, a, b :: 0 <= i < |r| && 0 <= a < b < |r[i]| ==> r[i][a].objectness >= r[i][b].objectness
  {
    seq(|images|, i requires 0 <= i < |images| => ByObjectness(images[i]))
  }

  /** The highest objectness of an image comes first. */
  lemma ByObjectnessFirstIsMax<B>(proposals: seq<Proposal<B>>, k: nat)
    requires k < |proposals|
    ensures ByObjectness(proposals)[0].objectness >= proposals[k].objectness
  {
    var r := ByObjectness(proposals);
    assert proposals[k] in multiset(r);
    var b :| 0 <= b < |r| && r[b] == proposals[k];
  }
}
