/**
 The online region classifier around the minibootstrap loop: feature normalisation before
 training, training of the whole classifier bank, and the per-box score matrix used at test
 time. Feature statistics and the z-scoring transform are computed by code that is not part of
 this model; the transform is a row-wise function supplied by the caller.
 */
module RegionClassifier {
  import opened Wrappers
  import opened Selection
  import opened Minibootstrap

  /** `rows'` is `rows` with every row passed through `f` exactly once. */
  ghost predicate MappedOnce<R>(f: R -> R, rows: seq<R>, rows': seq<R>) {
    |rows'| == |rows| && forall k :: 0 <= k < |rows| ==> rows'[k] == f(rows[k])
  }

  /** Every batch of `batches'` is the matching batch of `batches` normalised row by row. */
  ghost predicate BatchesMappedOnce<R>(f: R -> R, batches: seq<seq<R>>, batches': seq<seq<R>>) {
    |batches'| == |batches| && forall j :: 0 <= j < |batches| ==> MappedOnce(f, batches[j], batches'[j])
  }

  /**
   The normalisation loop of `trainRegionClassifier`: for every foreground class, the
   non-empty positive set and every non-empty negative batch are z-scored. Entries past the
   foreground classes are left as they are.
   */
  method NormalizeFeatures<R>(
    opts: Options, zScores: R -> R, positives: seq<seq<R>>, negatives: seq<seq<seq<R>>>)
    returns (positives': seq<seq<R>>, negatives': seq<seq<seq<R>>>)
    requires NumForeground(opts) <= |positives| && NumForeground(opts) <= |negatives|
    ensures |positives'| == |positives| && |negatives'| == |negatives|
    ensures forall i :: 0 <= i < NumForeground(opts) ==>
              MappedOnce(zScores, positives[i], positives'[i])
              && BatchesMappedOnce(zScores, negatives[i], negatives'[i])
    ensures forall i :: NumForeground(opts) <= i < |positives| ==> positives'[i] == positives[i]
    ensures forall i :: NumForeground(opts) <= i < |negatives| ==> negatives'[i] == negatives[i]
  {
    positives', negatives' := positives, negatives;
    var n := NumForeground(opts);
    var i := 0;
    while i < n
      invariant 0 <= i <= n
      invariant |positives'| == |positives| && |negatives'| == |negatives|
      invariant forall c :: 0 <= c < i ==>
                  MappedOnce(zScores, positives[c], positives'[c])
                  && BatchesMappedOnce(zScores, negatives[c], negatives'[c])
      invariant forall c :: i <= c < |positives| ==> positives'[c] == positives[c]
      invariant forall c :: i <= c < |negatives| ==> negatives'[c] == negatives[c]
    {
      if |positives'[i]| != 0 {
        positives' := positives'[i := Map(zScores, positives'[i])];
      }
      var batches := negatives'[i];
      var j := 0;
      while j < |batches|
        invariant 0 <= j <= |batches| == |negatives[i]|
        invariant forall b :: 0 <= b < j ==> MappedOnce(zScores, negatives[i][b], batches[b])
        invariant forall b :: j <= b < |batches| ==> batches[b] == negatives[i][b]
      {
        if |batches[j]| != 0 {
          batches := batches[j := Map(zScores, batches[j])];
        }
        j := j + 1;
      }
      negatives' := negatives'[i := batches];
      i := i + 1;
    }
  }

  /** Every batch normalised row by row. */
  function MapBatches<R>(f: R -> R, batches: seq<seq<R>>): (r: seq<seq<R>>)
    ensures |r| == |batches|
  {
    seq(|batches|, j requires 0 <= j < |batches| => Map(f, batches[j]))
  }

  /** Normalising exactly once is the row-wise map, for positive sets and batch lists alike. */
  lemma MappedOnceIsMap<R>(f: R -> R, pos: seq<R>, pos': seq<R>, batches: seq<seq<R>>, batches': seq<seq<R>>)
    requires MappedOnce(f, pos, pos') && BatchesMappedOnce(f, batches, batches')
    ensures pos' == Map(f, pos) && batches' == MapBatches(f, batches)
  {
    forall j | 0 <= j < |batches|
      ensures batches'[j] == MapBatches(f, batches)[j]
    {
      assert MappedOnce(f, batches[j], batches'[j]);
    }
  }

  /**
   `trainRegionClassifier`: normalise, then run the minibootstrap loop. The model bank has one
   entry per foreground class; entry `i` is class `i`'s outcome on its normalised features, and
   it is `None` exactly when that class had no positives or no negative batches.
   */
  method TrainRegionClassifier<R, M>(
    clf: Classifier<R, M>, opts: Options, zScores: R -> R,
    positives: seq<seq<R>>, negatives: seq<seq<seq<R>>>)
    returns (models: seq<Option<M>>)
    requires NumForeground(opts) <= |positives| && NumForeground(opts) <= |negatives|
    ensures |models| == NumForeground(opts)
    ensures forall i :: 0 <= i < |models| ==>
              models[i] == ModelOf(TrainClass(clf, opts, Map(zScores, positives[i]),
                                              MapBatches(zScores, negatives[i])))
    ensures forall i :: 0 <= i < |models| ==>
              (models[i].None? <==> |positives[i]| == 0 || |negatives[i]| == 0)
  {
    var positives', negatives' := NormalizeFeatures(opts, zScores, positives, negatives);
    var caches, calls;
    models, caches, calls := TrainWithMinibootstrap(clf, opts, positives', negatives');
    forall i | 0 <= i < |models|
      ensures positives'[i] == Map(zScores, positives[i])
      ensures negatives'[i] == MapBatches(zScores, negatives[i])
    {
      MappedOnceIsMap(zScores, positives[i], positives'[i], negatives[i], negatives'[i]);
    }
  }

  /** The score `predict` gives a box for one class; a missing model goes through `onMissing`. */
  function ClassScore<R, M>(clf: Classifier<R, M>, model: Option<M>, onMissing: R -> real, x: R): real {
    if model.Some? then clf.predict(model.value, x) else onMissing(x)
  }

  /** The score matrix row of box `x`: column 0 is the background sentinel -1, column c+1 is class c. */
  ghost predicate ScoreRow<R, M>(
    clf: Classifier<R, M>, numClasses: nat, models: seq<Option<M>>, onMissing: R -> real, x: R, row: seq<real>)
    requires numClasses <= |models| + 1
  {
    && |row| == numClasses
    && (numClasses > 0 ==> row[0] == -1.0)
    && forall c :: 0 <= c < numClasses - 1 ==> row[c + 1] == ClassScore(clf, models[c], onMissing, x)
  }

  /**
   The score matrix of `testRegionClassifier` for one image: one row per box, one column per
   class. It starts as all -1 and column `c + 1` is overwritten with class `c`'s predictions.
   */
  method TestScores<R, M>(
    clf: Classifier<R, M>, numClasses: nat, models: seq<Option<M>>, onMissing: R -> real, xs: seq<R>)
    returns (scores: seq<seq<real>>)
    requires numClasses <= |models| + 1
    ensures |scores| == |xs|
    ensures forall b :: 0 <= b < |xs| ==> ScoreRow(clf, numClasses, models, onMissing, xs[b], scores[b])
  {
    scores := seq(|xs|, _ => seq(numClasses, _ => -1.0));
    var c := 0;
    while c < numClasses - 1
      invariant 0 <= c <= if numClasses == 0 then 0 else numClasses - 1
      invariant |scores| == |xs|
      invariant forall b :: 0 <= b < |xs| ==> |scores[b]| == numClasses
      invariant forall b, col :: 0 <= b < |xs| && 0 <= col < numClasses ==>
                  scores[b][col] == if 1 <= col <= c then ClassScore(clf, models[col - 1], onMissing, xs[b]) else -1.0
    {
      var model := models[c];
      scores := seq(|scores|, b requires 0 <= b < |scores| =>
                      scores[b][c + 1 := ClassScore(clf, model, onMissing, xs[b])]);
      c := c + 1;
    }
  }
}
