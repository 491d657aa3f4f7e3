/**
 The minibootstrap hard-negative mining loop of the online region classifier.

 For every foreground class a cache of training rows is seeded with the class's positives and
 its first negative batch; every later batch contributes only its hard negatives (rows the
 current model scores above `negHardThresh`); after each batch the model is retrained from
 scratch on the whole cache, and the cache then drops its easy negatives (rows the new model
 scores below `negEasyThresh`). The classifier's `train` and `predict` are not modelled: they
 are function values supplied by the caller.
 */
module Minibootstrap {
  import opened Wrappers
  import opened Selection

  /** Hyper-parameters passed to `train`: both tuned values, or the classifier's own defaults. */
  datatype TrainArgs = Defaults | Tuned(sigma: real, lam: real)

  /**
   The kernel classifier seen from outside. `train` receives the rows, their +1/-1 labels and
   the hyper-parameters; `predict` scores one row (higher means more foreground).
   */
  datatype Classifier<!R, !M> = Classifier(
    train: (seq<R>, seq<int>, TrainArgs) -> M,
    predict: (M, R) -> real)

  /** The options the training loop reads. */
  datatype Options = Options(
    numClasses: int,
    negHardThresh: real,
    negEasyThresh: real,
    sigma: Option<real>,
    lam: Option<real>)

  /** Per-class training cache: the positives and the negatives currently retained. */
  datatype Cache<R> = Cache(pos: seq<R>, neg: seq<R>)

  /** The arguments of one `train` call: rows and their labels. */
  datatype TrainingSet<R> = TrainingSet(x: seq<R>, y: seq<int>)

  /** One class's progress: its cache, its latest model, and every training set used so far. */
  datatype Run<R, M> = Run(cache: Cache<R>, model: M, trained: seq<TrainingSet<R>>)

  /** Number of foreground classes, i.e. the length of `range(num_classes - 1)`. */
  function NumForeground(opts: Options): nat {
    if opts.numClasses >= 1 then opts.numClasses - 1 else 0
  }

  /** The hyper-parameters `updateModel` forwards: tuned only when both are set. */
  function TrainArguments(sigma: Option<real>, lam: Option<real>): (a: TrainArgs)
    ensures a.Tuned? <==> sigma.Some? && lam.Some?
    ensures a.Tuned? ==> a.sigma == sigma.value && a.lam == lam.value
  {
    if sigma.Some? && lam.Some? then Tuned(sigma.value, lam.value) else Defaults
  }

  /** Label vector of `numPos` positives followed by `numNeg` negatives. */
  function Labels(numPos: nat, numNeg: nat): (y: seq<int>)
    ensures |y| == numPos + numNeg
    ensures forall k :: 0 <= k < |y| ==> (y[k] == 1 <==> k < numPos)
    ensures forall k :: 0 <= k < |y| ==> (y[k] == -1 <==> numPos <= k)
  {
    seq(numPos, _ => 1) + seq(numNeg, _ => -1)
  }

  /** `t` has the positives `pos` first, labelled +1, and only -1 labels after them. */
  ghost predicate StartsWithPositives<R>(t: TrainingSet<R>, pos: seq<R>) {
    && |t.x| == |t.y|
    && |pos| <= |t.x|
    && t.x[..|pos|] == pos
    && forall k :: 0 <= k < |t.y| ==> (t.y[k] == 1 <==> k < |pos|) && (t.y[k] == 1 || t.y[k] == -1)
  }

  /** The rows and labels `updateModel` builds from a cache: positives then negatives. */
  function TrainingSetOf<R>(cache: Cache<R>): (t: TrainingSet<R>)
    ensures |t.x| == |t.y| == |cache.pos| + |cache.neg|
    ensures t.x[..|cache.pos|] == cache.pos && t.x[|cache.pos|..] == cache.neg
    ensures forall k :: 0 <= k < |t.y| ==> (t.y[k] == 1 <==> k < |cache.pos|)
    ensures forall k :: 0 <= k < |t.y| ==> (t.y[k] == -1 <==> |cache.pos| <= k)
  {
    TrainingSet(cache.pos + cache.neg, Labels(|cache.pos|, |cache.neg|))
  }

  /** The model one `train` call returns for a training set. */
  function TrainOn<R, M>(clf: Classifier<R, M>, opts: Options, t: TrainingSet<R>): M {
    clf.train(t.x, t.y, TrainArguments(opts.sigma, opts.lam))
  }

  /** UPDATE: a full retrain on the whole cache. */
  function UpdateModel<R, M>(clf: Classifier<R, M>, opts: Options, cache: Cache<R>): M {
    TrainOn(clf, opts, TrainingSetOf(cache))
  }

  /**
   What UPDATE hands to `train`: the positives followed by the negatives, a label of +1 for
   every positive and -1 for every negative, and the tuned or default kernel parameters.
   */
  lemma UpdateModelTrainsOnCache<R, M>(clf: Classifier<R, M>, opts: Options, cache: Cache<R>)
    ensures exists y: seq<int> ::
              && UpdateModel(clf, opts, cache) == clf.train(cache.pos + cache.neg, y, TrainArguments(opts.sigma, opts.lam))
              && |y| == |cache.pos| + |cache.neg|
              && forall k :: 0 <= k < |y| ==> y[k] == if k < |cache.pos| then 1 else -1
  {
    var t := TrainingSetOf(cache);
    assert forall k :: 0 <= k < |t.y| ==> t.y[k] == if k < |cache.pos| then 1 else -1;
    assert UpdateModel(clf, opts, cache) == clf.train(cache.pos + cache.neg, t.y, TrainArguments(opts.sigma, opts.lam));
  }

  /** SEED: the positives and the whole first negative batch. */
  function Seed<R>(pos: seq<R>, batch: seq<R>): (c: Cache<R>)
    ensures c.pos == pos && c.neg == batch
  {
    Cache(pos, batch)
  }

  /** A hard negative: one `model` scores strictly above the hard threshold. */
  function Hard<R, M>(clf: Classifier<R, M>, opts: Options, model: M): R -> bool {
    (x: R) => clf.predict(model, x) > opts.negHardThresh
  }

  /** A negative worth keeping: one `model` scores at or above the easy threshold. */
  function Kept<R, M>(clf: Classifier<R, M>, opts: Options, model: M): R -> bool {
    (x: R) => clf.predict(model, x) >= opts.negEasyThresh
  }

  /** MINE: append the rows of `batch` that `model` scores strictly above the hard threshold. */
  function Mine<R, M>(clf: Classifier<R, M>, opts: Options, model: M, cache: Cache<R>, batch: seq<R>)
    : (c: Cache<R>)
    ensures c.pos == cache.pos
    ensures |cache.neg| <= |c.neg| <= |cache.neg| + |batch|
    ensures c.neg[..|cache.neg|] == cache.neg
    ensures forall a :: |cache.neg| <= a < |c.neg| ==> clf.predict(model, c.neg[a]) > opts.negHardThresh
    ensures IsSubsequence(c.neg[|cache.neg|..], batch)
    ensures |c.neg| == |cache.neg| + Count(batch, Hard(clf, opts, model))
  {
    var hard := Filter(batch, Hard(clf, opts, model));
    FilterLength(batch, Hard(clf, opts, model));
    assert (cache.neg + hard)[|cache.neg|..] == hard;
    Cache(cache.pos, cache.neg + hard)
  }

  /** PRUNE: keep the negatives that `model` scores at or above the easy threshold; skipped on an empty cache. */
  function Prune<R, M>(clf: Classifier<R, M>, opts: Options, model: M, cache: Cache<R>): (c: Cache<R>)
    ensures c.pos == cache.pos
    ensures |c.neg| <= |cache.neg|
    ensures forall a :: 0 <= a < |c.neg| ==> clf.predict(model, c.neg[a]) >= opts.negEasyThresh
    ensures IsSubsequence(c.neg, cache.neg)
    ensures |cache.neg| != 0 ==> |c.neg| == Count(cache.neg, Kept(clf, opts, model))
  {
    if |cache.neg| != 0 then
      FilterLength(cache.neg, Kept(clf, opts, model));
      Cache(cache.pos, Filter(cache.neg, Kept(clf, opts, model)))
    else
      EmptyIsSubsequence(cache.neg);
      cache
  }

  /** MINE appends every row of the batch that scores strictly above the hard threshold. */
  lemma MineKeepsHard<R, M>(clf: Classifier<R, M>, opts: Options, model: M, cache: Cache<R>, batch: seq<R>, k: nat)
    requires k < |batch| && clf.predict(model, batch[k]) > opts.negHardThresh
    ensures batch[k] in Mine(clf, opts, model, cache, batch).neg[|cache.neg|..]
  {
    var hard := Hard(clf, opts, model);
    FilterComplete(batch, hard, k);
    assert Mine(clf, opts, model, cache, batch).neg[|cache.neg|..] == Filter(batch, hard);
  }

  /** PRUNE keeps every cached negative that scores at or above the easy threshold. */
  lemma PruneKeepsEasy<R, M>(clf: Classifier<R, M>, opts: Options, model: M, cache: Cache<R>, k: nat)
    requires k < |cache.neg| && clf.predict(model, cache.neg[k]) >= opts.negEasyThresh
    ensures cache.neg[k] in Prune(clf, opts, model, cache).neg
  {
    FilterComplete(cache.neg, Kept(clf, opts, model), k);
  }

  /** UPDATE followed by PRUNE, recording the training set passed to `train`. */
  function Retrain<R, M>(clf: Classifier<R, M>, opts: Options, cache: Cache<R>, trained: seq<TrainingSet<R>>)
    : (r: Run<R, M>)
    ensures r.cache.pos == cache.pos
    ensures r.trained == trained + [TrainingSetOf(cache)]
    ensures StartsWithPositives(TrainingSetOf(cache), cache.pos)
    ensures r.model == TrainOn(clf, opts, TrainingSetOf(cache))
    ensures forall a :: 0 <= a < |r.cache.neg| ==> clf.predict(r.model, r.cache.neg[a]) >= opts.negEasyThresh
    ensures IsSubsequence(r.cache.neg, cache.neg)
  {
    var model := UpdateModel(clf, opts, cache);
    Run(Prune(clf, opts, model, cache), model, trained + [TrainingSetOf(cache)])
  }

  /** Every row of `rows` is a row of one of the batches. */
  ghost predicate FromBatches<R>(rows: seq<R>, batches: seq<seq<R>>) {
    forall a :: 0 <= a < |rows| ==> exists j :: 0 <= j < |batches| && rows[a] in batches[j]
  }

  /**
   The state machine SEED(batch 0), then MINE/UPDATE/PRUNE for every later batch, as a left
   fold over the batches.
   */
  function Bootstrap<R, M>(clf: Classifier<R, M>, opts: Options, pos: seq<R>, batches: seq<seq<R>>)
    : (r: Run<R, M>)
    requires |batches| > 0
    ensures r.cache.pos == pos
    ensures |r.trained| == |batches|
    ensures r.model == TrainOn(clf, opts, r.trained[|batches| - 1])
    ensures forall a :: 0 <= a < |r.cache.neg| ==> clf.predict(r.model, r.cache.neg[a]) >= opts.negEasyThresh
    decreases |batches|
  {
    if |batches| == 1 then
      Retrain(clf, opts, Seed(pos, batches[0]), [])
    else
      Step(clf, opts, Bootstrap(clf, opts, pos, batches[..|batches| - 1]), batches[|batches| - 1])
  }

  /** A later batch: MINE with the current model, then UPDATE and PRUNE. */
  function Step<R, M>(clf: Classifier<R, M>, opts: Options, prev: Run<R, M>, batch: seq<R>): (r: Run<R, M>)
    ensures r.cache.pos == prev.cache.pos
    ensures |r.trained| == |prev.trained| + 1
    ensures r.trained[..|prev.trained|] == prev.trained
    ensures r.model == TrainOn(clf, opts, r.trained[|prev.trained|])
    ensures forall a :: 0 <= a < |r.cache.neg| ==> clf.predict(r.model, r.cache.neg[a]) >= opts.negEasyThresh
  {
    Retrain(clf, opts, Mine(clf, opts, prev.model, prev.cache, batch), prev.trained)
  }

  /** Every `train` call of a class gets that class's positives first, labelled +1, then negatives labelled -1. */
  lemma {:induction false} BootstrapTrainsOnPositivesFirst<R, M>(
    clf: Classifier<R, M>, opts: Options, pos: seq<R>, batches: seq<seq<R>>)
    requires |batches| > 0
    ensures forall i :: 0 <= i < |batches| ==> StartsWithPositives(Bootstrap(clf, opts, pos, batches).trained[i], pos)
    decreases |batches|
  {
    var r := Bootstrap(clf, opts, pos, batches);
    if |batches| > 1 {
      var prev := Bootstrap(clf, opts, pos, batches[..|batches| - 1]);
      BootstrapTrainsOnPositivesFirst(clf, opts, pos, batches[..|batches| - 1]);
      var mined := Mine(clf, opts, prev.model, prev.cache, batches[|batches| - 1]);
      assert r.trained == prev.trained + [TrainingSetOf(mined)];
      forall i | 0 <= i < |batches|
        ensures StartsWithPositives(r.trained[i], pos)
      {
        if i < |batches| - 1 {
          assert r.trained[i] == prev.trained[i];
        }
      }
    }
  }

  /** Every negative left in the cache is a row of one of the batches seen. */
  lemma {:induction false} BootstrapCacheFromBatches<R, M>(
    clf: Classifier<R, M>, opts: Options, pos: seq<R>, batches: seq<seq<R>>)
    requires |batches| > 0
    ensures FromBatches(Bootstrap(clf, opts, pos, batches).cache.neg, batches)
    decreases |batches|
  {
    var r := Bootstrap(clf, opts, pos, batches);
    if |batches| == 1 {
      SeededFromBatches(r.cache.neg, batches);
    } else {
      var prev := Bootstrap(clf, opts, pos, batches[..|batches| - 1]);
      BootstrapCacheFromBatches(clf, opts, pos, batches[..|batches| - 1]);
      var mined := Mine(clf, opts, prev.model, prev.cache, batches[|batches| - 1]);
      MinedFromBatches(prev.cache.neg, mined.neg, batches);
      PrunedFromBatches(r.cache.neg, mined.neg, batches);
    }
  }

  lemma SeededFromBatches<R>(neg: seq<R>, batches: seq<seq<R>>)
    requires |batches| > 0
    requires IsSubsequence(neg, batches[0])
    ensures FromBatches(neg, batches)
  {
    SubsequenceMembers(neg, batches[0]);
  }

  lemma PrunedFromBatches<R>(kept: seq<R>, neg: seq<R>, batches: seq<seq<R>>)
    requires FromBatches(neg, batches)
    requires IsSubsequence(kept, neg)
    ensures FromBatches(kept, batches)
  {
    SubsequenceMembers(kept, neg);
    forall a | 0 <= a < |kept|
      ensures exists j :: 0 <= j < |batches| && kept[a] in batches[j]
    {
      var b :| 0 <= b < |neg| && neg[b] == kept[a];
    }
  }

  lemma MinedFromBatches<R>(old_neg: seq<R>, neg: seq<R>, batches: seq<seq<R>>)
    requires |batches| > 0
    requires FromBatches(old_neg, batches[..|batches| - 1])
    requires |old_neg| <= |neg| && neg[..|old_neg|] == old_neg
    requires IsSubsequence(neg[|old_neg|..], batches[|batches| - 1])
    ensures FromBatches(neg, batches)
  {
    var last := |batches| - 1;
    SubsequenceMembers(neg[|old_neg|..], batches[last]);
    forall a | 0 <= a < |neg|
      ensures exists j :: 0 <= j < |batches| && neg[a] in batches[j]
    {
      if a < |old_neg| {
        assert neg[a] == old_neg[a];
        var j :| 0 <= j < last && old_neg[a] in batches[..last][j];
        assert batches[..last][j] == batches[j];
      } else {
        assert neg[a] == neg[|old_neg|..][a - |old_neg|];
        assert neg[a] in batches[last];
      }
    }
  }

  /** One class: skipped (no model, empty cache, no training) without positives or without negative batches. */
  function TrainClass<R, M>(clf: Classifier<R, M>, opts: Options, pos: seq<R>, batches: seq<seq<R>>)
    : (r: Option<Run<R, M>>)
    ensures r.None? <==> |pos| == 0 || |batches| == 0
    ensures r.Some? ==> |r.value.trained| == |batches| && r.value.cache.pos == pos
  {
    if |pos| != 0 && |batches| != 0 then Some(Bootstrap(clf, opts, pos, batches)) else None
  }

  /** The entry a class contributes to the returned model list. */
  function ModelOf<R, M>(run: Option<Run<R, M>>): Option<M> {
    if run.Some? then Some(run.value.model) else None
  }

  /** The entry a class contributes to the cache list (`None` for the empty `{}`). */
  function CacheOf<R, M>(run: Option<Run<R, M>>): Option<Cache<R>> {
    if run.Some? then Some(run.value.cache) else None
  }

  /** How many times `train` ran for a class. */
  function TrainCalls<R, M>(run: Option<Run<R, M>>): nat {
    if run.Some? then |run.value.trained| else 0
  }

  /**
   The inner batch loop of `trainWithMinibootstrap` for class `i == |models|`: the first batch
   appends the class's entries to both lists, every later batch overwrites entry `i`.
   */
  method BootstrapClass<R, M>(
    clf: Classifier<R, M>, opts: Options, pos: seq<R>, batches: seq<seq<R>>,
    models: seq<Option<M>>, caches: seq<Option<Cache<R>>>)
    returns (models': seq<Option<M>>, caches': seq<Option<Cache<R>>>, calls: nat)
    requires |pos| != 0 && |batches| != 0
    requires |models| == |caches|
    ensures models' == models + [Some(Bootstrap(clf, opts, pos, batches).model)]
    ensures caches' == caches + [Some(Bootstrap(clf, opts, pos, batches).cache)]
    ensures calls == |batches|
  {
    models', caches', calls := models, caches, 0;
    ghost var run: Run<R, M> := Retrain(clf, opts, Seed(pos, batches[0]), []);
    var j := 0;
    while j < |batches|
      invariant 0 <= j <= |batches|
      invariant j == 0 ==> models' == models && caches' == caches
      invariant j > 0 ==> run == Bootstrap(clf, opts, pos, batches[..j])
      invariant j > 0 ==> models' == models + [Some(run.model)] && caches' == caches + [Some(run.cache)]
      invariant calls == j
    {
      if j == 0 {
        models', caches' := SeedStep(clf, opts, pos, batches[0], models, caches);
        BootstrapUnfoldSeed(clf, opts, pos, batches);
        run := Retrain(clf, opts, Seed(pos, batches[0]), []);
      } else {
        models', caches' := MineStep(clf, opts, run, batches[j], models, caches, models', caches');
        BootstrapUnfoldMine(clf, opts, pos, batches, j);
        run := Step(clf, opts, run, batches[j]);
      }
      calls := calls + 1;
      j := j + 1;
    }
    assert batches[..j] == batches;
  }

  /** The first batch: append a SEED cache and a `None` model for the class, then fill both in. */
  method SeedStep<R, M>(
    clf: Classifier<R, M>, opts: Options, pos: seq<R>, batch: seq<R>,
    models: seq<Option<M>>, caches: seq<Option<Cache<R>>>)
    returns (models': seq<Option<M>>, caches': seq<Option<Cache<R>>>)
    requires |models| == |caches|
    ensures models' == models + [Some(Retrain(clf, opts, Seed(pos, batch), []).model)]
    ensures caches' == caches + [Some(Retrain(clf, opts, Seed(pos, batch), []).cache)]
  {
    var i := |models|;
    var cache := Seed(pos, batch);
    caches' := caches + [Some(cache)];
    models' := models + [None];
    var model := UpdateModel(clf, opts, cache);
    ReplaceLast(models, None, Some(model));
    models' := models'[i := Some(model)];
    var pruned := Prune(clf, opts, model, cache);
    ReplaceLast(caches, Some(cache), Some(pruned));
    caches' := caches'[i := Some(pruned)];
  }

  /** A later batch: MINE into the class's cache with its current model, then overwrite both entries. */
  method MineStep<R, M>(
    clf: Classifier<R, M>, opts: Options, ghost prev: Run<R, M>, batch: seq<R>,
    models: seq<Option<M>>, caches: seq<Option<Cache<R>>>,
    models': seq<Option<M>>, caches': seq<Option<Cache<R>>>)
    returns (models'': seq<Option<M>>, caches'': seq<Option<Cache<R>>>)
    requires |models| == |caches|
    requires models' == models + [Some(prev.model)] && caches' == caches + [Some(prev.cache)]
    ensures models'' == models + [Some(Step(clf, opts, prev, batch).model)]
    ensures caches'' == caches + [Some(Step(clf, opts, prev, batch).cache)]
  {
    var i := |models|;
    var cache := Mine(clf, opts, models'[i].value, caches'[i].value, batch);
    var model := UpdateModel(clf, opts, cache);
    ReplaceLast(models, models'[i], Some(model));
    models'' := models'[i := Some(model)];
    var pruned := Prune(clf, opts, model, cache);
    ReplaceLast(caches, caches'[i], Some(pruned));
    caches'' := caches'[i := Some(pruned)];
  }

  /** Assigning to the last entry of a list replaces that entry and nothing else. */
  lemma ReplaceLast<T>(prefix: seq<T>, last: T, x: T)
    ensures (prefix + [last])[|prefix| := x] == prefix + [x]
  {
  }

  /** The first batch: `Bootstrap` on one batch is SEED, then UPDATE and PRUNE. */
  lemma BootstrapUnfoldSeed<R, M>(clf: Classifier<R, M>, opts: Options, pos: seq<R>, batches: seq<seq<R>>)
    requires 0 < |batches|
    ensures Bootstrap(clf, opts, pos, batches[..1]) == Retrain(clf, opts, Seed(pos, batches[0]), [])
  {
  }

  /** A later batch: `Bootstrap` on `j + 1` batches is one more MINE/UPDATE/PRUNE step after `j` batches. */
  lemma BootstrapUnfoldMine<R, M>(clf: Classifier<R, M>, opts: Options, pos: seq<R>, batches: seq<seq<R>>, j: nat)
    requires 0 < j < |batches|
    ensures Bootstrap(clf, opts, pos, batches[..j + 1])
            == Step(clf, opts, Bootstrap(clf, opts, pos, batches[..j]), batches[j])
  {
    assert batches[..j + 1][..j] == batches[..j];
  }

  /** A class's entries in the three lists are the outcome of that class's state machine. */
  ghost predicate EntryMatches<R, M>(
    clf: Classifier<R, M>, opts: Options, pos: seq<R>, batches: seq<seq<R>>,
    model: Option<M>, cache: Option<Cache<R>>, calls: nat)
  {
    var run := TrainClass(clf, opts, pos, batches);
    model == ModelOf(run) && cache == CacheOf(run) && calls == TrainCalls(run)
  }

  /**
   `trainWithMinibootstrap`: the per-class loop with its list bookkeeping. The returned lists
   are aligned with the classes, and entry `i` is the outcome of class `i`'s state machine.
   */
  method TrainWithMinibootstrap<R, M>(
    clf: Classifier<R, M>, opts: Options, positives: seq<seq<R>>, negatives: seq<seq<seq<R>>>)
    returns (models: seq<Option<M>>, caches: seq<Option<Cache<R>>>, trainCalls: seq<nat>)
    requires NumForeground(opts) <= |positives| && NumForeground(opts) <= |negatives|
    ensures |models| == |caches| == |trainCalls| == NumForeground(opts)
    ensures forall i :: 0 <= i < |models| ==>
              && models[i] == ModelOf(TrainClass(clf, opts, positives[i], negatives[i]))
              && caches[i] == CacheOf(TrainClass(clf, opts, positives[i], negatives[i]))
    ensures forall i :: 0 <= i < |models| ==>
              (models[i].None? <==> |positives[i]| == 0 || |negatives[i]| == 0)
    ensures forall i :: 0 <= i < |trainCalls| ==>
              trainCalls[i] == (if |positives[i]| == 0 || |negatives[i]| == 0 then 0 else |negatives[i]|)
  {
    models, caches, trainCalls := [], [], [];
    var i := 0;
    while i < NumForeground(opts)
      invariant 0 <= i <= NumForeground(opts)
      invariant |models| == |caches| == |trainCalls| == i
      invariant forall c :: 0 <= c < i ==>
                  EntryMatches(clf, opts, positives[c], negatives[c], models[c], caches[c], trainCalls[c])
    {
      var models', caches', calls := TrainOneClass(clf, opts, positives[i], negatives[i], models, caches);
      ExtendDone(clf, opts, positives, negatives, models, caches, trainCalls);
      models, caches, trainCalls := models', caches', trainCalls + [calls];
      i := i + 1;
    }
    forall c | 0 <= c < |models|
      ensures models[c] == ModelOf(TrainClass(clf, opts, positives[c], negatives[c]))
      ensures caches[c] == CacheOf(TrainClass(clf, opts, positives[c], negatives[c]))
      ensures models[c].None? <==> |positives[c]| == 0 || |negatives[c]| == 0
      ensures trainCalls[c] == (if |positives[c]| == 0 || |negatives[c]| == 0 then 0 else |negatives[c]|)
    {
      EntryFacts(clf, opts, positives[c], negatives[c], models[c], caches[c], trainCalls[c]);
    }
  }

  /** One iteration of the class loop: a skipped class appends `None` and `{}`, any other runs its batches. */
  method TrainOneClass<R, M>(
    clf: Classifier<R, M>, opts: Options, pos: seq<R>, batches: seq<seq<R>>,
    models: seq<Option<M>>, caches: seq<Option<Cache<R>>>)
    returns (models': seq<Option<M>>, caches': seq<Option<Cache<R>>>, calls: nat)
    requires |models| == |caches|
    ensures models' == models + [ModelOf(TrainClass(clf, opts, pos, batches))]
    ensures caches' == caches + [CacheOf(TrainClass(clf, opts, pos, batches))]
    ensures calls == TrainCalls(TrainClass(clf, opts, pos, batches))
  {
    if |pos| != 0 && |batches| != 0 {
      models', caches', calls := BootstrapClass(clf, opts, pos, batches, models, caches);
    } else {
      models', caches', calls := models + [None], caches + [None], 0;
    }
  }

  /** What a class's matching entries say about it: its outcome, when it has no model, and its training count. */
  lemma EntryFacts<R, M>(
    clf: Classifier<R, M>, opts: Options, pos: seq<R>, batches: seq<seq<R>>,
    model: Option<M>, cache: Option<Cache<R>>, calls: nat)
    requires EntryMatches(clf, opts, pos, batches, model, cache, calls)
    ensures model == ModelOf(TrainClass(clf, opts, pos, batches))
    ensures cache == CacheOf(TrainClass(clf, opts, pos, batches))
    ensures model.None? <==> |pos| == 0 || |batches| == 0
    ensures calls == (if |pos| == 0 || |batches| == 0 then 0 else |batches|)
  {
    ClassOutcome(clf, opts, pos, batches);
  }

  /** Appending class `|models|`'s outcome keeps every earlier class's entries and completes the next one. */
  lemma ExtendDone<R, M>(
    clf: Classifier<R, M>, opts: Options, positives: seq<seq<R>>, negatives: seq<seq<seq<R>>>,
    models: seq<Option<M>>, caches: seq<Option<Cache<R>>>, calls: seq<nat>)
    requires |models| == |caches| == |calls| < |positives| && |calls| < |negatives|
    requires forall c :: 0 <= c < |models| ==>
               EntryMatches(clf, opts, positives[c], negatives[c], models[c], caches[c], calls[c])
    ensures var run := TrainClass(clf, opts, positives[|models|], negatives[|models|]);
            var models', caches', calls' := models + [ModelOf(run)], caches + [CacheOf(run)], calls + [TrainCalls(run)];
            forall c :: 0 <= c <= |models| ==>
              EntryMatches(clf, opts, positives[c], negatives[c], models'[c], caches'[c], calls'[c])
  {
    var run := TrainClass(clf, opts, positives[|models|], negatives[|models|]);
    var models', caches', calls' := models + [ModelOf(run)], caches + [CacheOf(run)], calls + [TrainCalls(run)];
    forall c | 0 <= c <= |models|
      ensures EntryMatches(clf, opts, positives[c], negatives[c], models'[c], caches'[c], calls'[c])
    {
      if c < |models| {
        assert models'[c] == models[c] && caches'[c] == caches[c] && calls'[c] == calls[c];
      }
    }
  }

  /** A class has no model exactly when it is skipped, and it trains once per batch otherwise. */
  lemma ClassOutcome<R, M>(clf: Classifier<R, M>, opts: Options, pos: seq<R>, batches: seq<seq<R>>)
    ensures ModelOf(TrainClass(clf, opts, pos, batches)).None? <==> |pos| == 0 || |batches| == 0
    ensures TrainCalls(TrainClass(clf, opts, pos, batches))
              == (if |pos| == 0 || |batches| == 0 then 0 else |batches|)
  {
  }
}
