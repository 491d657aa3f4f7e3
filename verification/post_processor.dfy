/**
 The detection post-filter of the online detection pipeline. For every image, each box carries
 one candidate box and one score per class; the filter thresholds the scores class by class
 (skipping the background column 0), runs non-maximum suppression per class, labels what
 survives, and finally caps the number of detections per image with a cutoff taken from the
 k-th smallest score.

 Non-maximum suppression and clipping to the image are supplied by the caller; the filter is
 modelled only through what it does with their results.
 */
module DetectionPostProcessor {
  import opened Selection
  import opened Ordering

  /** An axis-aligned box in `xyxy` form. */
  datatype Box = Box(x1: real, y1: real, x2: real, y2: real)

  /** A box with the score of one class, the unit non-maximum suppression works on. */
  datatype Scored = Scored(box: Box, score: real)

  /** One output detection: its box, its score and its class label. */
  datatype Detection = Detection(box: Box, score: real, category: nat)

  /** One proposal: a candidate box and a score for every class (column `j` is class `j`). */
  datatype Row = Row(boxes: seq<Box>, scores: seq<real>)

  /** Image width and height, as carried by a box list. */
  datatype ImageSize = ImageSize(width: real, height: real)

  /** The box list of one image handed to `forward`. */
  datatype Image = Image(size: ImageSize, rows: seq<Row>)

  /**
   Settings of the post-processor: the score threshold, the per-image cap (non-positive means
   no cap) and whether box regression is class-agnostic (one box per proposal, shared by all
   classes).
   */
  datatype Config = Config(scoreThresh: real, detectionsPerImg: int, clsAgnosticBboxReg: bool)

  /** Every row has a box and a score for each of the first `numClasses` classes. */
  ghost predicate Shaped(rows: seq<Row>, numClasses: nat) {
    forall k :: 0 <= k < |rows| ==> numClasses <= |rows[k].boxes| && numClasses <= |rows[k].scores|
  }

  /**
   Non-maximum suppression only ever returns candidates it was given. This is all the model
   assumes of `boxlist_nms`; which candidates it suppresses, and in what order it returns the
   rest, is left open.
   */
  ghost predicate Selects(nms: seq<Scored> -> seq<Scored>) {
    forall xs: seq<Scored>, a :: 0 <= a < |nms(xs)| ==> nms(xs)[a] in xs
  }

  /** Row `k`'s box and score for class `j`. */
  function ClassEntry(row: Row, j: nat): Scored
    requires j < |row.boxes| && j < |row.scores|
  {
    Scored(row.boxes[j], row.scores[j])
  }

  /** `e` is some row's class-`j` entry. */
  ghost predicate FromRow(rows: seq<Row>, j: nat, e: Scored)
    requires Shaped(rows, j + 1)
  {
    exists k :: 0 <= k < |rows| && e == ClassEntry(rows[k], j)
  }

  /** The row mask `scores[:, j] > score_thresh`. */
  function AboveThreshold(rows: seq<Row>, j: nat, thresh: real): (flags: seq<bool>)
    requires Shaped(rows, j + 1)
  {
    seq(|rows|, k requires 0 <= k < |rows| => rows[k].scores[j] > thresh)
  }

  /**
   The candidates of class `j`: the rows whose class-`j` score is strictly above the threshold,
   in row order, each with its class-`j` box and score.
   */
  function Candidates(rows: seq<Row>, j: nat, thresh: real): (r: seq<Scored>)
    requires Shaped(rows, j + 1)
    ensures forall a :: 0 <= a < |r| ==> r[a].score > thresh
    ensures forall a :: 0 <= a < |r| ==> FromRow(rows, j, r[a])
  {
    var idx := Where(AboveThreshold(rows, j, thresh));
    var r := seq(|idx|, a requires 0 <= a < |idx| => ClassEntry(rows[idx[a]], j));
    assert forall a :: 0 <= a < |r| ==> FromRow(rows, j, r[a]) by {
      forall a | 0 <= a < |r|
        ensures FromRow(rows, j, r[a])
      {
        assert r[a] == ClassEntry(rows[idx[a]], j);
      }
    }
    r
  }

  /** Every row whose class-`j` score is strictly above the threshold is a class-`j` candidate. */
  lemma CandidatesComplete(rows: seq<Row>, j: nat, thresh: real, k: nat)
    requires Shaped(rows, j + 1)
    requires k < |rows| && rows[k].scores[j] > thresh
    ensures ClassEntry(rows[k], j) in Candidates(rows, j, thresh)
  {
    var flags := AboveThreshold(rows, j, thresh);
    var idx := Where(flags);
    assert flags[k];
    var a :| 0 <= a < |idx| && idx[a] == k;
    assert Candidates(rows, j, thresh)[a] == ClassEntry(rows[k], j);
  }

  /** Every row's class-`j` entry, in row order: the rows `torch.where` selects from. */
  function ClassEntries(rows: seq<Row>, j: nat): (r: seq<Scored>)
    requires Shaped(rows, j + 1)
    ensures |r| == |rows|
  {
    seq(|rows|, k requires 0 <= k < |rows| => ClassEntry(rows[k], j))
  }

  /**
   The candidates are the qualifying rows' entries taken once each, in row order: as many as
   there are rows above the threshold, selected from the class-`j` entries without reordering.
   */
  lemma CandidatesInRowOrder(rows: seq<Row>, j: nat, thresh: real)
    requires Shaped(rows, j + 1)
    ensures |Candidates(rows, j, thresh)| == CountTrue(AboveThreshold(rows, j, thresh))
    ensures IsSubsequence(Candidates(rows, j, thresh), ClassEntries(rows, j))
  {
    var idx := Where(AboveThreshold(rows, j, thresh));
    var r := Candidates(rows, j, thresh);
    var all := ClassEntries(rows, j);
    assert forall a :: 0 <= a < |r| ==> r[a] == all[idx[a]];
    assert |idx| == |r| && ValidIndices(idx, |all|) && StrictlyIncreasing(idx);
  }

  /** The survivors of one class, labelled with that class. */
  function Labelled(kept: seq<Scored>, j: nat): (r: seq<Detection>)
    ensures |r| == |kept|
    ensures forall a :: 0 <= a < |r| ==> r[a].category == j && Scored(r[a].box, r[a].score) == kept[a]
  {
    seq(|kept|, a requires 0 <= a < |kept| => Detection(kept[a].box, kept[a].score, j))
  }

  /** The survivors of non-maximum suppression for class `j`. */
  function Survivors(rows: seq<Row>, j: nat, thresh: real, nms: seq<Scored> -> seq<Scored>): seq<Scored>
    requires Shaped(rows, j + 1)
  {
    nms(Candidates(rows, j, thresh))
  }

  /**
   `x` is one of the survivors of class `x.category`, for a foreground class below
   `numClasses`, labelled with that class.
   */
  ghost predicate FromSurvivors(rows: seq<Row>, thresh: real, nms: seq<Scored> -> seq<Scored>, numClasses: nat, x: Detection)
    requires Shaped(rows, numClasses)
  {
    1 <= x.category < numClasses && Scored(x.box, x.score) in Survivors(rows, x.category, thresh, nms)
  }

  /**
   The per-class results for classes `1 .. upTo - 1`, concatenated in ascending class order.
   Class 0, the background, never contributes.
   */
  function Blocks(rows: seq<Row>, thresh: real, nms: seq<Scored> -> seq<Scored>, upTo: nat): (r: seq<Detection>)
    requires Shaped(rows, upTo)
    ensures forall a :: 0 <= a < |r| ==> FromSurvivors(rows, thresh, nms, upTo, r[a])
    ensures forall a, b :: 0 <= a < b < |r| ==> r[a].category <= r[b].category
    decreases upTo
  {
    if upTo <= 1 then []
    else
      var j := upTo - 1;
      var front := Blocks(rows, thresh, nms, j);
      var block := Labelled(Survivors(rows, j, thresh, nms), j);
      assert forall a :: 0 <= a < |front| ==> FromSurvivors(rows, thresh, nms, upTo, front[a]);
      assert forall a :: 0 <= a < |block| ==> FromSurvivors(rows, thresh, nms, upTo, block[a]);
      front + block
  }

  /** Labelling keeps every survivor, now carrying the class. */
  lemma LabelledMember(kept: seq<Scored>, j: nat, e: Scored)
    requires e in kept
    ensures Detection(e.box, e.score, j) in Labelled(kept, j)
  {
    var a :| 0 <= a < |kept| && kept[a] == e;
    assert Labelled(kept, j)[a] == Detection(e.box, e.score, j);
  }

  /** The blocks up to `upTo` are those up to `upTo - 1` followed by class `upTo - 1`'s block. */
  lemma BlocksUnfold(rows: seq<Row>, thresh: real, nms: seq<Scored> -> seq<Scored>, upTo: nat)
    requires Shaped(rows, upTo) && upTo > 1
    ensures Blocks(rows, thresh, nms, upTo)
            == Blocks(rows, thresh, nms, upTo - 1) + Labelled(Survivors(rows, upTo - 1, thresh, nms), upTo - 1)
  {
  }

  /** A detection in the blocks up to `upTo - 1` is still there after class `upTo - 1`'s block. */
  lemma BlocksGrow(rows: seq<Row>, thresh: real, nms: seq<Scored> -> seq<Scored>, upTo: nat, d: Detection)
    requires Shaped(rows, upTo) && upTo > 1
    requires d in Blocks(rows, thresh, nms, upTo - 1)
    ensures d in Blocks(rows, thresh, nms, upTo)
  {
    BlocksUnfold(rows, thresh, nms, upTo);
    ConcatMembers(Blocks(rows, thresh, nms, upTo - 1), Labelled(Survivors(rows, upTo - 1, thresh, nms), upTo - 1), d);
  }

  /** Class `upTo - 1`'s survivors are in the blocks up to `upTo`, labelled with that class. */
  lemma BlocksLast(rows: seq<Row>, thresh: real, nms: seq<Scored> -> seq<Scored>, upTo: nat, e: Scored)
    requires Shaped(rows, upTo) && upTo > 1
    requires e in Survivors(rows, upTo - 1, thresh, nms)
    ensures Detection(e.box, e.score, upTo - 1) in Blocks(rows, thresh, nms, upTo)
  {
    var block := Labelled(Survivors(rows, upTo - 1, thresh, nms), upTo - 1);
    BlocksUnfold(rows, thresh, nms, upTo);
    LabelledMember(Survivors(rows, upTo - 1, thresh, nms), upTo - 1, e);
    ConcatMembers(Blocks(rows, thresh, nms, upTo - 1), block, Detection(e.box, e.score, upTo - 1));
  }

  /** Every survivor of every foreground class appears in the blocks, labelled with its class. */
  lemma {:induction false} BlocksComplete(rows: seq<Row>, thresh: real, nms: seq<Scored> -> seq<Scored>, upTo: nat, j: nat, e: Scored)
    requires Shaped(rows, upTo)
    requires 1 <= j < upTo && e in Survivors(rows, j, thresh, nms)
    ensures Detection(e.box, e.score, j) in Blocks(rows, thresh, nms, upTo)
    decreases upTo
  {
    if j == upTo - 1 {
      BlocksLast(rows, thresh, nms, upTo, e);
    } else {
      BlocksComplete(rows, thresh, nms, upTo - 1, j, e);
      BlocksGrow(rows, thresh, nms, upTo, Detection(e.box, e.score, j));
    }
  }

  /** The scores of a list of detections, in order. */
  function ScoresOf(dets: seq<Detection>): (s: seq<real>)
    ensures |s| == |dets|
    ensures forall a :: 0 <= a < |s| ==> s[a] == dets[a].score
  {
    seq(|dets|, a requires 0 <= a < |dets| => dets[a].score)
  }

  /** The predicate "score at least `c`". */
  function AtLeast(c: real): Detection -> bool {
    (x: Detection) => x.score >= c
  }

  /** The per-image cutoff: the `(n - d + 1)`-th smallest of the `n` scores. */
  function Cutoff(dets: seq<Detection>, d: int): real
    requires |dets| > d > 0
  {
    KthSmallest(ScoresOf(dets), |dets| - d + 1)
  }

  /**
   The per-image cap: when there are more than `d > 0` detections, keep exactly those whose
   score is at least the cutoff, in their original order; otherwise keep everything.
   */
  function Cap(dets: seq<Detection>, d: int): (r: seq<Detection>)
    ensures IsSubsequence(r, dets)
    ensures d <= 0 || |dets| <= d ==> r == dets
    ensures |dets| > d > 0 ==> forall a :: 0 <= a < |r| ==> r[a].score >= Cutoff(dets, d)
    ensures |dets| > d > 0 ==> |r| == Count(dets, AtLeast(Cutoff(dets, d)))
  {
    if |dets| > d > 0 then
      FilterLength(dets, AtLeast(Cutoff(dets, d)));
      Filter(dets, AtLeast(Cutoff(dets, d)))
    else
      assert |dets| == |dets| && ValidIndices(seq(|dets|, a => a), |dets|)
          && StrictlyIncreasing(seq(|dets|, a => a));
      dets
  }

  /** Counting kept and dropped detections: every detection is either at least `c` or below it. */
  lemma {:induction false} KeptPlusBelow(dets: seq<Detection>, c: real)
    ensures Count(dets, AtLeast(c)) + CountBelow(ScoresOf(dets), c) == |dets|
    decreases |dets|
  {
    if |dets| > 0 {
      var front := dets[..|dets| - 1];
      assert ScoresOf(dets)[..|dets| - 1] == ScoresOf(front);
      KeptPlusBelow(front, c);
    }
  }

  /** The cutoff really is the `(n - d + 1)`-th smallest score, counted with multiplicity. */
  lemma CutoffIsOrderStatistic(dets: seq<Detection>, d: int)
    requires |dets| > d > 0
    ensures IsKthSmallest(ScoresOf(dets), |dets| - d + 1, Cutoff(dets, d))
    ensures Cutoff(dets, d) in ScoresOf(dets)
  {
  }

  /** A capped list holds at least `d` and at most `n` detections when the cap applies. */
  lemma CapBounds(dets: seq<Detection>, d: int)
    requires |dets| > d > 0
    ensures d <= |Cap(dets, d)| <= |dets|
  {
    var c := Cutoff(dets, d);
    CutoffIsOrderStatistic(dets, d);
    FilterLength(dets, AtLeast(c));
    KeptPlusBelow(dets, c);
  }

  /** With pairwise distinct scores the cap keeps exactly `d` detections. */
  lemma CapExactWhenDistinct(dets: seq<Detection>, d: int)
    requires |dets| > d > 0
    requires Distinct(ScoresOf(dets))
    ensures |Cap(dets, d)| == d
  {
    var c := Cutoff(dets, d);
    CutoffIsOrderStatistic(dets, d);
    DistinctCountAtMostOneMore(ScoresOf(dets), c);
    FilterLength(dets, AtLeast(c));
    KeptPlusBelow(dets, c);
  }

  /** A detection survives the cap exactly when its score reaches the cutoff. */
  lemma CapKeepsExactly(dets: seq<Detection>, d: int, k: nat)
    requires |dets| > d > 0 && k < |dets|
    ensures dets[k] in Cap(dets, d) <==> dets[k].score >= Cutoff(dets, d)
  {
    var r := Cap(dets, d);
    if dets[k] in r {
      var a :| 0 <= a < |r| && r[a] == dets[k];
    } else if dets[k].score >= Cutoff(dets, d) {
      FilterComplete(dets, AtLeast(Cutoff(dets, d)), k);
    }
  }

  /** Every score the cap keeps is at least every score it drops. */
  lemma CapKeepsHighest(dets: seq<Detection>, d: int, a: nat, k: nat)
    requires a < |Cap(dets, d)| && k < |dets| && dets[k] !in Cap(dets, d)
    ensures Cap(dets, d)[a].score >= dets[k].score
  {
    if |dets| > d > 0 {
      CapKeepsExactly(dets, d, k);
    }
  }

  /**
   `filter_results` for one image: per-class threshold and suppression for classes
   `1 .. numClasses - 1` in ascending order, then the per-image cap.
   */
  function FilterResults(rows: seq<Row>, numClasses: nat, cfg: Config, nms: seq<Scored> -> seq<Scored>): (r: seq<Detection>)
    requires Shaped(rows, numClasses)
    ensures forall a :: 0 <= a < |r| ==> FromSurvivors(rows, cfg.scoreThresh, nms, numClasses, r[a])
    ensures forall a, b :: 0 <= a < b < |r| ==> r[a].category <= r[b].category
    ensures IsSubsequence(r, Blocks(rows, cfg.scoreThresh, nms, numClasses))
  {
    var blocks := Blocks(rows, cfg.scoreThresh, nms, numClasses);
    var r := Cap(blocks, cfg.detectionsPerImg);
    SubsequenceKeepsProperty(r, blocks, x => FromSurvivors(rows, cfg.scoreThresh, nms, numClasses, x));
    SubsequenceKeepsOrder(r, blocks, (x: Detection, y: Detection) => x.category <= y.category);
    r
  }

  /**
   With a selecting suppression step, every emitted detection is a real candidate: its score is
   strictly above the threshold, and its box and score are some proposal's entry for its label.
   */
  lemma FilterResultsProvenance(rows: seq<Row>, numClasses: nat, cfg: Config, nms: seq<Scored> -> seq<Scored>, a: nat)
    requires Shaped(rows, numClasses) && Selects(nms)
    requires a < |FilterResults(rows, numClasses, cfg, nms)|
    ensures var x := FilterResults(rows, numClasses, cfg, nms)[a];
            && x.category != 0
            && x.score > cfg.scoreThresh
            && exists k :: 0 <= k < |rows| && x.box == rows[k].boxes[x.category] && x.score == rows[k].scores[x.category]
  {
    var x := FilterResults(rows, numClasses, cfg, nms)[a];
    assert FromSurvivors(rows, cfg.scoreThresh, nms, numClasses, x);
    var cands := Candidates(rows, x.category, cfg.scoreThresh);
    var e := Scored(x.box, x.score);
    assert e in nms(cands);
    var i :| 0 <= i < |nms(cands)| && nms(cands)[i] == e;
    assert e in cands;
    var b :| 0 <= b < |cands| && cands[b] == e;
    assert FromRow(rows, x.category, cands[b]);
    var k :| 0 <= k < |rows| && cands[b] == ClassEntry(rows[k], x.category);
  }

  /** The proposal row and class a detection's box and score were taken from. */
  lemma FilterResultsSource(rows: seq<Row>, numClasses: nat, cfg: Config, nms: seq<Scored> -> seq<Scored>, a: nat)
    returns (k: nat, j: nat)
    requires Shaped(rows, numClasses) && Selects(nms)
    requires a < |FilterResults(rows, numClasses, cfg, nms)|
    ensures var x := FilterResults(rows, numClasses, cfg, nms)[a];
            && j == x.category && 1 <= j < numClasses && k < |rows|
            && x.box == rows[k].boxes[j] && x.score == rows[k].scores[j]
  {
    FilterResultsProvenance(rows, numClasses, cfg, nms, a);
    var x := FilterResults(rows, numClasses, cfg, nms)[a];
    assert FromSurvivors(rows, cfg.scoreThresh, nms, numClasses, x);
    j := x.category;
    k :| 0 <= k < |rows| && x.box == rows[k].boxes[j] && x.score == rows[k].scores[j];
  }

  /** Without a cap, nothing is lost: every survivor of every class is emitted with its label. */
  lemma FilterResultsComplete(rows: seq<Row>, numClasses: nat, cfg: Config, nms: seq<Scored> -> seq<Scored>, j: nat, e: Scored)
    requires Shaped(rows, numClasses)
    requires |Blocks(rows, cfg.scoreThresh, nms, numClasses)| <= cfg.detectionsPerImg || cfg.detectionsPerImg <= 0
    requires 1 <= j < numClasses && e in Survivors(rows, j, cfg.scoreThresh, nms)
    ensures Detection(e.box, e.score, j) in FilterResults(rows, numClasses, cfg, nms)
  {
    BlocksComplete(rows, cfg.scoreThresh, nms, numClasses, j, e);
  }

  /** The class-agnostic layout: the single box of a proposal repeated once per class. */
  function Repeat(row: Row, numClasses: nat): (r: Row)
    requires |row.boxes| == 1
    ensures |r.boxes| == numClasses && r.scores == row.scores
    ensures forall j :: 0 <= j < numClasses ==> r.boxes[j] == row.boxes[0]
  {
    Row(seq(numClasses, _ => row.boxes[0]), row.scores)
  }

  /** Every box of every row clipped to the image. */
  function ClipRows(clip: (ImageSize, Box) -> Box, size: ImageSize, rows: seq<Row>): (r: seq<Row>)
    ensures |r| == |rows|
    ensures forall k :: 0 <= k < |r| ==> r[k].scores == rows[k].scores && |r[k].boxes| == |rows[k].boxes|
    ensures forall k, j :: 0 <= k < |r| && 0 <= j < |rows[k].boxes| ==> r[k].boxes[j] == clip(size, rows[k].boxes[j])
  {
    seq(|rows|, k requires 0 <= k < |rows| =>
          Row(seq(|rows[k].boxes|, j requires 0 <= j < |rows[k].boxes| => clip(size, rows[k].boxes[j])), rows[k].scores))
  }

  /** An image's box list is laid out as `forward` expects for the given settings. */
  predicate WellFormed(img: Image, numClasses: nat, cfg: Config) {
    forall k :: 0 <= k < |img.rows| ==>
      && |img.rows[k].scores| == numClasses
      && |img.rows[k].boxes| == (if cfg.clsAgnosticBboxReg then 1 else numClasses)
  }

  /** The rows `filter_results` sees for one image: repeated if class-agnostic, then clipped. */
  function Prepared(img: Image, numClasses: nat, cfg: Config, clip: (ImageSize, Box) -> Box): (r: seq<Row>)
    requires WellFormed(img, numClasses, cfg)
    ensures |r| == |img.rows| && Shaped(r, numClasses)
    ensures forall k :: 0 <= k < |r| ==> r[k].scores == img.rows[k].scores
    ensures forall k, j :: 0 <= k < |r| && 0 <= j < numClasses ==>
              r[k].boxes[j] == clip(img.size, img.rows[k].boxes[if cfg.clsAgnosticBboxReg then 0 else j])
  {
    var rows := if cfg.clsAgnosticBboxReg
                then seq(|img.rows|, k requires 0 <= k < |img.rows| => Repeat(img.rows[k], numClasses))
                else img.rows;
    assert forall k, j :: 0 <= k < |rows| && 0 <= j < numClasses ==>
             rows[k].scores == img.rows[k].scores
             && rows[k].boxes[j] == img.rows[k].boxes[if cfg.clsAgnosticBboxReg then 0 else j];
    ClipRows(clip, img.size, rows)
  }

  /** The body of `forward`'s loop for one image: prepare, clip, filter. */
  function ForwardImage(img: Image, numClasses: nat, cfg: Config,
                        nms: seq<Scored> -> seq<Scored>, clip: (ImageSize, Box) -> Box): seq<Detection>
    requires WellFormed(img, numClasses, cfg)
  {
    FilterResults(Prepared(img, numClasses, cfg, clip), numClasses, cfg, nms)
  }

  /**
   `forward`'s loop body as a function value. `forward` only ever applies it to images laid out
   as it expects; on any other image it yields nothing.
   */
  function PerImage(numClasses: nat, cfg: Config, nms: seq<Scored> -> seq<Scored>,
                    clip: (ImageSize, Box) -> Box): Image -> seq<Detection>
  {
    img => if WellFormed(img, numClasses, cfg) then ForwardImage(img, numClasses, cfg, nms, clip) else []
  }

  /** `forward`: one filtered result per image, in image order. */
  function Forward(images: seq<Image>, numClasses: nat, cfg: Config,
                   nms: seq<Scored> -> seq<Scored>, clip: (ImageSize, Box) -> Box): (r: seq<seq<Detection>>)
    requires forall i :: 0 <= i < |images| ==> WellFormed(images[i], numClasses, cfg)
    ensures |r| == |images|
    ensures forall i :: 0 <= i < |images| ==> r[i] == ForwardImage(images[i], numClasses, cfg, nms, clip)
  {
    Map(PerImage(numClasses, cfg, nms, clip), images)
  }

  /** Images are processed independently: the results of a concatenation are the concatenated results. */
  lemma ForwardConcat(xs: seq<Image>, ys: seq<Image>, numClasses: nat, cfg: Config,
                      nms: seq<Scored> -> seq<Scored>, clip: (ImageSize, Box) -> Box)
    requires forall i :: 0 <= i < |xs| ==> WellFormed(xs[i], numClasses, cfg)
    requires forall i :: 0 <= i < |ys| ==> WellFormed(ys[i], numClasses, cfg)
    ensures forall i :: 0 <= i < |xs + ys| ==> WellFormed((xs + ys)[i], numClasses, cfg)
    ensures Forward(xs + ys, numClasses, cfg, nms, clip)
            == Forward(xs, numClasses, cfg, nms, clip) + Forward(ys, numClasses, cfg, nms, clip)
  {
    forall i | 0 <= i < |xs + ys|
      ensures WellFormed((xs + ys)[i], numClasses, cfg)
    {
      if i >= |xs| {
        assert (xs + ys)[i] == ys[i - |xs|];
      }
    }
    MapConcat(PerImage(numClasses, cfg, nms, clip), xs, ys);
  }

  /** One image with class-agnostic regression: every detection's box is a clipped proposal box. */
  lemma ImageBoxIsClippedProposal(img: Image, numClasses: nat, cfg: Config,
                                  nms: seq<Scored> -> seq<Scored>, clip: (ImageSize, Box) -> Box, a: nat)
    requires WellFormed(img, numClasses, cfg) && cfg.clsAgnosticBboxReg && Selects(nms)
    requires a < |ForwardImage(img, numClasses, cfg, nms, clip)|
    ensures exists k :: 0 <= k < |img.rows| &&
              ForwardImage(img, numClasses, cfg, nms, clip)[a].box == clip(img.size, img.rows[k].boxes[0])
  {
    var rows := Prepared(img, numClasses, cfg, clip);
    var dets := FilterResults(rows, numClasses, cfg, nms);
    assert ForwardImage(img, numClasses, cfg, nms, clip) == dets;
    var x := dets[a];
    var k, j := FilterResultsSource(rows, numClasses, cfg, nms, a);
    assert x.box == clip(img.size, img.rows[k].boxes[0]);
  }

  /**
   With class-agnostic regression, every detection's box is the clipped box of some proposal
   of that image, whatever class it was labelled with.
   */
  lemma AgnosticBoxIsClippedProposal(images: seq<Image>, numClasses: nat, cfg: Config,
                                     nms: seq<Scored> -> seq<Scored>, clip: (ImageSize, Box) -> Box, i: nat, a: nat)
    requires forall i :: 0 <= i < |images| ==> WellFormed(images[i], numClasses, cfg)
    requires cfg.clsAgnosticBboxReg && Selects(nms)
    requires i < |images| && a < |Forward(images, numClasses, cfg, nms, clip)[i]|
    ensures exists k :: 0 <= k < |images[i].rows| &&
              Forward(images, numClasses, cfg, nms, clip)[i][a].box == clip(images[i].size, images[i].rows[k].boxes[0])
  {
    ImageBoxIsClippedProposal(images[i], numClasses, cfg, nms, clip, a);
  }
}
