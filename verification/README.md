# Online detection: minibootstrap training, detection post-filter, online RPN head

This project models three parts of the robotology online-detection pipeline in Dafny. It
works over abstract feature rows and real-valued scores.

1. **The online region classifier** (`OnlineRegionClassifier`). Training runs per foreground
   class as a small state machine over that class's ordered negative batches:
   - SEED: the cache is the positives plus the whole first batch.
   - MINE: append only the batch rows the current model scores strictly above `neg_hard_thresh`.
   - UPDATE: retrain from scratch on the whole cache, positives labelled +1 first, then negatives labelled -1.
   - PRUNE: keep only the cached negatives the new model scores at or above `neg_easy_thresh`.

   A class without positives or without negative batches gets no model (`None`) and an empty
   cache. Features are z-scored before training. At test time the score matrix has the
   background column fixed at -1 and one column per class model.
   Modules: `Minibootstrap` (`minibootstrap.dfy`) and `RegionClassifier` (`region_classifier.dfy`).
2. **The detection post-filter** (`OnlineDetectionPostProcessor.filter_results` and
   `forward`). For classes 1 to `num_classes - 1`, in order, it keeps the proposals whose
   class score is strictly above `score_thresh`. It then runs non-maximum suppression and
   labels the survivors with the class. Finally it caps the detections of an image. When there
   are `n > d > 0` of them, the cutoff is the `(n - d + 1)`-th smallest score, and exactly the
   detections scoring at least the cutoff are kept.
   Module: `DetectionPostProcessor` (`post_processor.dfy`).
3. **The online RPN head** (`RPNHead.forward`, `refine_boxes`, `compute_objectness_FALKON`, and
   the `RPN_ONLY` ordering in `RPNModule._forward_test`). The rules modelled are:
   - dimensions are latched from the first feature map;
   - each map is flattened to one row per location;
   - rows are normalised as `(x - mean) * (20 / mean_norm)`;
   - there is one objectness channel per classifier, at -2 everywhere when the classifier is missing;
   - there are four box-delta channels for each of 15 classes, computed as `(x·W[:-1] + W[-1])·T_inv + mu`, and zero when the class has no regressor;
   - an RPN-only model returns each image's proposals by descending objectness.

   Module: `RpnHead` (`rpn_head.dfy`).

The shared building blocks are:
- `Selection` (`selection.dfy`): `torch.where` followed by indexing, as an order-preserving filter.
- `Ordering` (`ordering.dfy`): sorting by a key, and `torch.kthvalue` as an order statistic defined by sorting and characterised by counting.
- `Wrappers` (`wrappers.dfy`): `Option` for Python's `None` and `Result` for raised errors.

The classifier's `train` and `predict`, the z-scoring transform, `boxlist_nms` and
`clip_to_image` are function values supplied by the caller. The model states what the
pipeline does with their results and nothing about their insides.

## Model

| member | source | states |
|---|---|---|
| Minibootstrap.TrainArguments | src/modules/region-classifier/OnlineRegionClassifier.py:95-100 | `train` gets the tuned `sigma`/`lam` exactly when both are set, with those values; otherwise it gets the classifier defaults |
| Minibootstrap.Labels | src/modules/region-classifier/OnlineRegionClassifier.py:87-92 | the label vector has `num_pos + num_neg` entries; an entry is +1 exactly when it lies in the first `num_pos`, and -1 exactly when it lies after them |
| Minibootstrap.TrainingSetOf | src/modules/region-classifier/OnlineRegionClassifier.py:84-92 | the training rows are the cache's positives followed by its negatives, with one label per row: +1 exactly on the positives, -1 exactly on the negatives |
| Minibootstrap.UpdateModelTrainsOnCache | src/modules/region-classifier/OnlineRegionClassifier.py:84-100 | `train` receives the positives followed by the negatives, a label of +1 on every positive and -1 on every negative, and the tuned or default kernel parameters; the model is what it returns |
| Minibootstrap.Mine | src/modules/region-classifier/OnlineRegionClassifier.py:120-126 | positives unchanged; the old negatives stay as a prefix; every appended row scores strictly above the hard threshold; the appended rows keep batch order; as many rows are appended as the batch has hard rows, so with the lemma below exactly the hard rows are appended, duplicates included |
| Minibootstrap.MineKeepsHard | src/modules/region-classifier/OnlineRegionClassifier.py:120-126 | every batch row the model scores strictly above the hard threshold is among the rows MINE appends |
| Minibootstrap.Prune | src/modules/region-classifier/OnlineRegionClassifier.py:135-142 | positives unchanged; the cache never grows; every kept negative scores at or above the easy threshold; original order is preserved; a non-empty cache keeps as many negatives as score at or above that threshold, so with the lemma below exactly those are kept, duplicates included (an empty cache is left alone) |
| Minibootstrap.PruneKeepsEasy | src/modules/region-classifier/OnlineRegionClassifier.py:135-142 | every cached negative the new model scores at or above the easy threshold survives PRUNE |
| Minibootstrap.Retrain | src/modules/region-classifier/OnlineRegionClassifier.py:130-142 | the model is trained on the cache with the positives first; that training set is recorded as the next `train` call; the pruned cache keeps only negatives the new model scores at or above the easy threshold, in order |
| Minibootstrap.Bootstrap | src/modules/region-classifier/OnlineRegionClassifier.py:111-146 | over a class's batches: the positives never change; `train` runs once per batch; the final model is the result of the last `train` call; every negative left scores at or above the easy threshold under it |
| Minibootstrap.Step | src/modules/region-classifier/OnlineRegionClassifier.py:120-142 | a later batch keeps the positives, records one more `train` call after the earlier ones, leaves a model trained on that call's set, and leaves only negatives that model scores at or above the easy threshold |
| Minibootstrap.BootstrapTrainsOnPositivesFirst | src/modules/region-classifier/OnlineRegionClassifier.py:84-92 | every `train` call of a class receives that class's positives first, labelled +1, and only -1 labels after them |
| Minibootstrap.BootstrapCacheFromBatches | src/modules/region-classifier/OnlineRegionClassifier.py:113-142 | every negative left in the cache is a row of one of the class's batches |
| Minibootstrap.BootstrapUnfoldSeed | src/modules/region-classifier/OnlineRegionClassifier.py:113-119 | on the first batch alone the state machine is SEED followed by UPDATE and PRUNE, with no earlier `train` call |
| Minibootstrap.BootstrapUnfoldMine | src/modules/region-classifier/OnlineRegionClassifier.py:120-142 | the state after `j + 1` batches is one MINE/UPDATE/PRUNE step, with the model and cache left by the first `j` batches, applied to batch `j` |
| Minibootstrap.TrainClass | src/modules/region-classifier/OnlineRegionClassifier.py:108 | a class is skipped exactly when it has no positives or no negative batches; otherwise it is trained once per batch and keeps its positives |
| Minibootstrap.ClassOutcome | src/modules/region-classifier/OnlineRegionClassifier.py:147-149 | a class has no model exactly when it is skipped; `train` runs 0 times for a skipped class and once per batch otherwise |
| Minibootstrap.SeedStep | src/modules/region-classifier/OnlineRegionClassifier.py:113-119 | appends the SEED cache to the cache list and a `None` placeholder to the model list, then overwrites both; the lists grow by exactly the retrained model and the pruned SEED cache of the first batch |
| Minibootstrap.MineStep | src/modules/region-classifier/OnlineRegionClassifier.py:120-142 | overwriting the class's last entries with the mined, retrained and pruned state leaves the earlier entries alone and the class's entries equal to one more state-machine step |
| Minibootstrap.BootstrapClass | src/modules/region-classifier/OnlineRegionClassifier.py:110-146 | the batch loop leaves the earlier classes' entries alone and adds exactly one entry to the model list and one to the cache list; those entries are the state machine's final model and cache; `train` runs once per batch |
| Minibootstrap.TrainOneClass | src/modules/region-classifier/OnlineRegionClassifier.py:105-149 | one class's turn of the outer loop adds exactly one model entry and one cache entry, the class's outcome (`None` when skipped), and runs `train` as often as that outcome says |
| Minibootstrap.TrainWithMinibootstrap | src/modules/region-classifier/OnlineRegionClassifier.py:102-156 | the model and cache lists have one entry per foreground class (`num_classes - 1`), aligned with the classes; entry `i` is class `i`'s outcome; the model is `None` exactly for skipped classes; `train` runs once per batch of each trained class |
| RegionClassifier.NormalizeFeatures | src/modules/region-classifier/OnlineRegionClassifier.py:166-172 | for every foreground class the positives and every negative batch are z-scored exactly once, row by row; entries beyond the foreground classes are untouched |
| RegionClassifier.TrainRegionClassifier | src/modules/region-classifier/OnlineRegionClassifier.py:158-176 | the model bank has one entry per foreground class; entry `i` is class `i`'s minibootstrap outcome on its z-scored features; it is `None` exactly when the class had no positives or no negative batches |
| RegionClassifier.TestScores | src/modules/region-classifier/OnlineRegionClassifier.py:210-213 | one score row per box with `num_classes` columns; column 0 is -1; column `c + 1` is class `c`'s prediction for that box |
| Selection.Filter | src/modules/region-classifier/OnlineRegionClassifier.py:140-142 | selecting through `torch.where` keeps only rows satisfying the predicate, never more rows than it was given, and preserves their order |
| Selection.FilterComplete | src/modules/region-classifier/OnlineRegionClassifier.py:140-142 | every row satisfying the predicate is kept by the selection |
| Selection.FilterLength | src/modules/region-classifier/OnlineRegionClassifier.py:140-141 | the number of rows kept is the number of rows satisfying the predicate |
| Ordering.KthSmallest | src/modules/accuracy-evaluator/OnlineDetectionPostProcessor_old.py:97-99 | the k-th value is one of the scores, and fewer than `k` scores lie below it while at least `k` lie at or below it |
| Ordering.KthSmallestCharacterized | src/modules/accuracy-evaluator/OnlineDetectionPostProcessor_old.py:97-99 | the value `kthvalue` returns is exactly the k-th smallest: fewer than `k` scores lie below it and at least `k` lie at or below it; no other value qualifies |
| DetectionPostProcessor.Candidates | src/modules/accuracy-evaluator/OnlineDetectionPostProcessor_old.py:75-79 | class `j`'s candidates all score strictly above the threshold, and each is some proposal's class-`j` box and score |
| DetectionPostProcessor.CandidatesComplete | src/modules/accuracy-evaluator/OnlineDetectionPostProcessor_old.py:75-79 | every proposal whose class-`j` score is strictly above the threshold is a class-`j` candidate |
| DetectionPostProcessor.CandidatesInRowOrder | src/modules/accuracy-evaluator/OnlineDetectionPostProcessor_old.py:75-79 | there are exactly as many candidates as rows above the threshold, and they are those rows' class-`j` entries selected in row order, each once |
| DetectionPostProcessor.Blocks | src/modules/accuracy-evaluator/OnlineDetectionPostProcessor_old.py:76-91 | every detection carries a label in `1 .. num_classes - 1` (never the background 0); each is a survivor of its own class's suppression; labels appear in ascending class order |
| DetectionPostProcessor.BlocksComplete | src/modules/accuracy-evaluator/OnlineDetectionPostProcessor_old.py:82-91 | every survivor of every foreground class is in the concatenated result, labelled with its class |
| DetectionPostProcessor.Cap | src/modules/accuracy-evaluator/OnlineDetectionPostProcessor_old.py:95-102 | without an active cap (`d <= 0` or `n <= d`) nothing is removed; with one, every kept detection scores at least the cutoff, as many are kept as reach it, and the kept detections are a selection of the input in its original order |
| DetectionPostProcessor.CutoffIsOrderStatistic | src/modules/accuracy-evaluator/OnlineDetectionPostProcessor_old.py:96-99 | the cutoff is the `(n - d + 1)`-th smallest score, counted with multiplicity, and is one of the scores |
| DetectionPostProcessor.CapBounds | src/modules/accuracy-evaluator/OnlineDetectionPostProcessor_old.py:95-102 | when the cap applies, at least `d` and at most `n` detections survive |
| DetectionPostProcessor.CapExactWhenDistinct | src/modules/accuracy-evaluator/OnlineDetectionPostProcessor_old.py:95-102 | with pairwise distinct scores exactly `d` detections survive |
| DetectionPostProcessor.CapKeepsExactly | src/modules/accuracy-evaluator/OnlineDetectionPostProcessor_old.py:100-102 | a detection survives the cap if and only if its score reaches the cutoff |
| DetectionPostProcessor.CapKeepsHighest | src/modules/accuracy-evaluator/OnlineDetectionPostProcessor_old.py:97-102 | every kept score is at least every dropped score |
| DetectionPostProcessor.FilterResults | src/modules/accuracy-evaluator/OnlineDetectionPostProcessor_old.py:62-103 | every output is a foreground-labelled survivor of its class's suppression; labels ascend; the output is an order-preserving selection of the per-class concatenation |
| DetectionPostProcessor.FilterResultsProvenance | src/modules/accuracy-evaluator/OnlineDetectionPostProcessor_old.py:75-88 | if suppression only returns its inputs, every detection has a nonzero label, a score strictly above the threshold, and the box and score of some proposal for that label |
| DetectionPostProcessor.FilterResultsSource | src/modules/accuracy-evaluator/OnlineDetectionPostProcessor_old.py:75-88 | if suppression only returns its inputs, every detection names its proposal: a row index and a foreground label `j` with that row's class-`j` box and score |
| DetectionPostProcessor.FilterResultsComplete | src/modules/accuracy-evaluator/OnlineDetectionPostProcessor_old.py:76-95 | when the cap is inactive, every survivor of every foreground class is emitted with its label |
| DetectionPostProcessor.Repeat | src/modules/accuracy-evaluator/OnlineDetectionPostProcessor_old.py:54-55 | in the class-agnostic layout every class gets the proposal's single box; the scores are unchanged |
| DetectionPostProcessor.Prepared | src/modules/accuracy-evaluator/OnlineDetectionPostProcessor_old.py:53-57 | one row per proposal; every row keeps its scores unchanged; the box of class `j` is `clip_to_image` of the proposal's class-`j` box, or of its single box in the class-agnostic layout |
| DetectionPostProcessor.Forward | src/modules/accuracy-evaluator/OnlineDetectionPostProcessor_old.py:53-60 | one result per image, in image order; result `i` is image `i` prepared, clipped and filtered on its own |
| DetectionPostProcessor.ForwardConcat | src/modules/accuracy-evaluator/OnlineDetectionPostProcessor_old.py:53-60 | images are filtered independently: one result per image, in image order, so the results of a concatenation are the concatenated results |
| DetectionPostProcessor.AgnosticBoxIsClippedProposal | src/modules/accuracy-evaluator/OnlineDetectionPostProcessor_old.py:53-58 | with class-agnostic regression every detection's box is the clipped box of one of that image's proposals, whatever its label |
| RpnHead.Latch | src/modules/feature-extractor/maskrcnn_pytorch/benchmark/modeling/rpn/rpn.py:113-117 | dimensions are taken from the map only when none are latched; a latched value is returned unchanged |
| RpnHead.LatchAllKeepsFirst | src/modules/feature-extractor/maskrcnn_pytorch/benchmark/modeling/rpn/rpn.py:113-117 | over any sequence of maps, a latch once set is never overwritten; an empty latch ends holding the first map's channels, height and width |
| RpnHead.Chunk | src/modules/feature-extractor/maskrcnn_pytorch/benchmark/modeling/rpn/rpn.py:119 | the view has `height * width` rows of `feat_size` values |
| RpnHead.ChunkAt | src/modules/feature-extractor/maskrcnn_pytorch/benchmark/modeling/rpn/rpn.py:119 | value `c` of row `l` of the view is entry `l * feat_size + c` of the permuted data, the row-major layout `view` reads |
| RpnHead.FlattenChunk | src/modules/feature-extractor/maskrcnn_pytorch/benchmark/modeling/rpn/rpn.py:119 | viewing the permuted map as `height * width` rows of `feat_size` values loses and reorders nothing: laying the rows end to end gives the data back |
| RpnHead.ChunkFlatten | src/modules/feature-extractor/maskrcnn_pytorch/benchmark/modeling/rpn/rpn.py:119 | conversely, equal-width rows are recovered by viewing their concatenation |
| RpnHead.Normalize | src/modules/feature-extractor/maskrcnn_pytorch/benchmark/modeling/rpn/rpn.py:121-122 | one value per feature; each, multiplied by `mean_norm`, is 20 times the feature's offset from the mean |
| RpnHead.DenormalizeNormalize | src/modules/feature-extractor/maskrcnn_pytorch/benchmark/modeling/rpn/rpn.py:121-122 | the normalisation `(x - mean) * (20 / mean_norm)` is undone by dividing by the scale and adding the mean back |
| RpnHead.NormalizeDenormalize | src/modules/feature-extractor/maskrcnn_pytorch/benchmark/modeling/rpn/rpn.py:121-122 | the inverse transform is undone by the normalisation, so the two are mutually inverse |
| RpnHead.NormalizeMean | src/modules/feature-extractor/maskrcnn_pytorch/benchmark/modeling/rpn/rpn.py:121-122 | a row equal to the mean normalises to the zero row |
| RpnHead.Objectness | src/modules/feature-extractor/maskrcnn_pytorch/benchmark/modeling/rpn/rpn.py:155-165 | one channel per classifier, in list order, one value per location; a missing classifier gives -2 at every location; a present one gives its prediction for that location's row |
| RpnHead.ObjectnessConcat | src/modules/feature-extractor/maskrcnn_pytorch/benchmark/modeling/rpn/rpn.py:157-164 | classifiers contribute independently: the channels for a concatenated classifier list are the concatenated channels |
| RpnHead.Delta | src/modules/feature-extractor/maskrcnn_pytorch/benchmark/modeling/rpn/rpn.py:138-150 | four deltas per location; without `Beta` they are all zero |
| RpnHead.DeltaFormula | src/modules/feature-extractor/maskrcnn_pytorch/benchmark/modeling/rpn/rpn.py:138-147 | with `Beta`, delta `m` is the sum over coordinates `k` of the ridge output `x·W[:-1] + W[-1]` of coordinate `k` times `T_inv[k][m]`, plus `mu[m]` |
| RpnHead.DeltaAtZero | src/modules/feature-extractor/maskrcnn_pytorch/benchmark/modeling/rpn/rpn.py:139-145 | the bias of each coordinate is the last weight (the last row of `W`): at the zero feature vector the ridge output is exactly those weights |
| RpnHead.DeltaIdentityTransform | src/modules/feature-extractor/maskrcnn_pytorch/benchmark/modeling/rpn/rpn.py:144-147 | with identity `T_inv` and zero `mu` the deltas are the ridge output `x·W[:-1] + W[-1]` itself |
| RpnHead.Refine | src/modules/feature-extractor/maskrcnn_pytorch/benchmark/modeling/rpn/rpn.py:133-153 | refining succeeds exactly when every class's regressor exists and has weights of the right size; then there are four channels per class in class order, and channel `4j + k` at location `l` is coordinate `k` of class `j`'s delta for row `l`; otherwise the error is the one met first in class order |
| RpnHead.RefineBoxes | src/modules/feature-extractor/maskrcnn_pytorch/benchmark/modeling/rpn/rpn.py:134-136 | on success there are always `4 * 15` channels |
| RpnHead.MissingRegressorGivesZero | src/modules/feature-extractor/maskrcnn_pytorch/benchmark/modeling/rpn/rpn.py:148-150 | a class without `Beta` contributes all-zero deltas at every location |
| RpnHead.Features | src/modules/feature-extractor/maskrcnn_pytorch/benchmark/modeling/rpn/rpn.py:118-122 | a map yields rows exactly when it holds one image whose channels are the latched feature size and whose locations number as many as the latched ones, the mean broadcasts and `mean_norm` is nonzero; then there is one row per location, and each row denormalises back to the map's data at that location |
| RpnHead.ViewRefusesOtherShapes | src/modules/feature-extractor/maskrcnn_pytorch/benchmark/modeling/rpn/rpn.py:119 | a map of more than one image, or with channels other than the latched feature size, is refused by the view |
| RpnHead.LevelForward | src/modules/feature-extractor/maskrcnn_pytorch/benchmark/modeling/rpn/rpn.py:118-126 | a map's online output exists exactly when its features do and all 15 regressors are usable; it then has one objectness channel per classifier and `4 * 15` delta channels |
| RpnHead.HeadForward | src/modules/feature-extractor/maskrcnn_pytorch/benchmark/modeling/rpn/rpn.py:106-131 | a successful pass has one output per feature map |
| RpnHead.HeadForwardFirstError | src/modules/feature-extractor/maskrcnn_pytorch/benchmark/modeling/rpn/rpn.py:106-131 | if every map before map `i` succeeds under the latched dimensions and map `i` fails, the pass raises map `i`'s error |
| RpnHead.HeadForwardSucceeds | src/modules/feature-extractor/maskrcnn_pytorch/benchmark/modeling/rpn/rpn.py:106-131 | if every map succeeds under the latched dimensions, the pass succeeds |
| RpnHead.HeadForwardState | src/modules/feature-extractor/maskrcnn_pytorch/benchmark/modeling/rpn/rpn.py:106-117 | after a forward pass, whether it succeeded or raised, the head's state is the latch applied over the maps |
| RpnHead.HeadForwardUsesLatch | src/modules/feature-extractor/maskrcnn_pytorch/benchmark/modeling/rpn/rpn.py:109-126 | a successful pass gives one output per map, and each map is processed with the dimensions latched before or from the first map |
| RpnHead.ByObjectness | src/modules/feature-extractor/maskrcnn_pytorch/benchmark/modeling/rpn/rpn.py:255-258 | an image's proposals are reordered as a permutation of the input, with non-increasing objectness |
| RpnHead.RpnOnlyOrder | src/modules/feature-extractor/maskrcnn_pytorch/benchmark/modeling/rpn/rpn.py:250-258 | one result per image, in image order; each is a permutation of that image's proposals in descending objectness |
| RpnHead.ByObjectnessFirstIsMax | src/modules/feature-extractor/maskrcnn_pytorch/benchmark/modeling/rpn/rpn.py:255-258 | the first proposal returned has the highest objectness of the image |

## Left out

- File reading, imsets, feature loading and the `gt == 0` selection in `testRegionClassifier`, saving models, timing and prints: these are I/O.
- `computeFeatStatistics` and `zScores`: the statistics are not computed here. The z-scoring is a caller-supplied function applied row by row.
- The classifier's `train` and `predict` are function values. `predict` is taken to score each row independently, so scoring a batch means scoring its rows one by one.
- RegionClassifier.TestScores: `predict` is called with a possibly `None` model, and what it returns then is not visible here. It is the caller-supplied `onMissing`.
- The rest of `testRegionClassifier`, i.e. building the `BoxList` with a fixed `(640, 480)` size, is bookkeeping and is not modelled.
- DetectionPostProcessor.Selects: `boxlist_nms` is only assumed to return some of its inputs. Which boxes it suppresses and in what order it returns them are left open, so per-class survivor order is not stated.
- `clip_to_image` is a caller-supplied function. `prepare_boxlist` is modelled as the per-proposal layout of one box and one score per class.
- DetectionPostProcessor.WellFormed: inputs whose box tensor does not have one box per class, or exactly one box in the class-agnostic layout, are excluded. On those, `reshape` would reinterpret or fail.
- DetectionPostProcessor.FilterResults: with `num_classes < 2` the program calls `cat_boxlist([])`, which reads `bboxes[0]` and so fails on the empty list (`cat_boxlist` itself is not part of this model); the model returns no detections there instead.
- DetectionPostProcessor.Forward: `forward` also overwrites the caller's `box.bbox` with the repeated boxes. That in-place side effect is not modelled.
- Device transfers (`.to('cuda')`, `.cpu()`) are not modelled.
- The pretrained branch of `RPNHead.forward` (`cls_logits`, `bbox_pred`) and the convolution plus ReLU before the head are not modelled. Neither are the other head classes, anchor generation, the box selector and the losses. These are network plumbing. The model starts from the convolved map.
- RpnHead.Features: the view is modelled as succeeding only on a single image whose channels equal the latched feature size and whose location count matches. Other shapes that torch's `view` happens to accept are reported as a view mismatch here, for example a one-channel batch or a map with a single location.
- RpnHead.Refine: a `T_inv` that is not 4×4 is reported as a regressor-shape error. On an empty feature map (`height * width == 0`) `refine_boxes`'s reshapes would succeed for other shapes.
- RpnHead.HeadForward: `refine_boxes` also sets `self.num_clss = 15` as a side effect. That is not modelled.
- RpnHead.ByObjectness: the order among equal objectness values is whatever the insertion sort produces. `torch.sort` does not promise one, so the contracts state only a permutation in descending order.
- `compute_average_recall` and the training branch of `RPNModule` are out of scope.
- Floating point: all arithmetic is on mathematical reals. IEEE rounding in the normalisation, the ridge prediction and the score comparisons is not modelled.
