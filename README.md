# cruw-devkit evaluation core, modelled in Dafny

This project models the core of the CRUW development kit, the toolkit that
comes with the CRUW camera-radar dataset. Its centre is the radar
object-detection (ROD) evaluation:

- Ingestion: the readers turn ground-truth, submission and network-output
  records into a dense (frame, class) bucket map. They drop objects outside
  the field of view and number the objects they keep.
- Matching: `compute_ols_dts_gts` builds the Object Location Similarity (OLS)
  matrix. `evaluate_img` then greedily matches detections, taken in
  descending-score order, to ground truth at every OLS threshold.
- Accumulation: `accumulate` pools the matches of a class over all frames
  and turns them into cumulative TP/FP counts. It builds a monotone
  precision envelope and resamples it at fixed recall levels.
- Summary: `summarize` reduces the result to count-weighted AP/AR
  statistics.

Around this sit:

- the OLS metric;
- the grid and nearest-bin helpers;
- the in-place translation of bird's-eye-view points;
- the configuration serialisers;
- the camera-calibration reshape;
- the annotation-skeleton builders.

Modelling choices:

- Quantities are Dafny `real`s. The OLS values of `get_ols_btw_objects`
  and `get_ols_ra` are numpy float64 results, so they are `Numerics.Float`:
  a finite real, +inf or NaN. Division by a zero denominator gives 0.0,
  +inf or NaN there, as numpy does. Python's `<` on them is `Numerics.Less`,
  which is false whenever NaN is involved.
- `exp`, `sqrt`, `sin`, `cos` and `arcsin` are function-valued fields of
  `Numerics.Math`. Each fact used about them (exp(0) = 1, exp monotone,
  sqrt a true square root, sin² + cos² = 1) is a law predicate that a lemma
  takes as a precondition.
- Python exceptions are `Wrappers.Result` errors of the same class
  (TypeError, ValueError, IndexError, KeyError, ZeroDivisionError,
  NotImplementedError).
- A NaN statistic of `_summarize` is `None`.
- Dictionaries and JSON values are `Json.Json`.

Modules and the source files they model:

| module | source |
|---|---|
| Wrappers, Numerics, Json, Objects | shared types: Python indexing and slicing, abstract math, JSON values, objects and bucket maps |
| Argsort | the stable descending `np.argsort(-x, kind='mergesort')` used by the evaluation |
| RodMatch | `compute_ols_dts_gts`, `evaluate_img` (cruw/eval/rod/rod_eval_utils.py) |
| RodAccumulate | `accumulate` (cruw/eval/rod/rod_eval_utils.py) |
| RodSummarize | `summarize`, `_summarize`, `_summarizeKps`, `_summarizeKps_cur` (cruw/eval/rod/rod_eval_utils.py) |
| LoadTxt | `read_gt_txt`, `read_sub_txt`, `read_rodnet_res` (cruw/eval/rod/load_txt.py) |
| Metrics | `get_ols_btw_objects`, `get_ols_ra`, `get_ols_xy`, `ols` (cruw/eval/metrics.py) |
| MappingOps | `find_nearest`, `idx2ra`, `ra2idx` (cruw/mapping/ops.py) |
| GenerateGrids | `confmap2ra`, `labelmap2ra`, `get_xzgrid` (cruw/mapping/generate_grids.py) |
| CoorTransform | `pol2cart_ramap`, `radar2camera_xz`, `camera2radar_xz` (cruw/mapping/coor_transform.py) |
| ConfigClasses | `serialize`/`initialize` of the four configuration classes (cruw/config_classes.py) |
| ParseCamCalib | `parse_cam_matrices` (cruw/utils/parse_cam_calib.py) |
| InitJson | `init_anno_json`, `init_meta_json`, `init_camera_json`, `init_radar_json` (cruw/annotation/init_json.py) |

How the source's form is kept:

- The imperative parts are methods with loops (on arrays where the source
  updates an ndarray), each proved equal to a specification function. Their properties are lemmas about that function.
  These methods are:
  - the OLS fill loop;
  - the match loops writing `gtm`/`dtm`;
  - the accumulation writing `precision`/`recall`/`scores`/`n_objects`;
  - the in-place envelope;
  - the `mean_s` loop;
  - the readers' id and bucket loops;
  - the `+=`/`-=` column updates;
  - the `meta_all` loop.
- The pure parts are functions with lemmas.

## Model

| member | source | states |
|---|---|---|
| Wrappers.PyIndex | cruw/eval/rod/load_txt.py:25-28 | A Python index is valid exactly on [-n, n); a negative index counts from the end |
| Wrappers.PyGet | cruw/mapping/ops.py:13-14 | `xs[i]` succeeds exactly for -n <= i < n and returns the wrapped element, else IndexError |
| Wrappers.TakePrefix | cruw/annotation/init_json.py:14 | `s[:n]` is a prefix of s with min(n, len s) elements |
| Numerics.Linspace | cruw/mapping/generate_grids.py:69-74 | `np.linspace` with endpoint has exactly `num` entries |
| Numerics.LinspaceShape | cruw/mapping/generate_grids.py:69-74 | linspace starts at start, ends at stop, and is evenly spaced by (stop - start)/(num - 1) |
| Numerics.Reverse | cruw/mapping/generate_grids.py:64 | `np.flip`: same length, entry i is entry n-1-i |
| Numerics.LessOrder | cruw/eval/rod/rod_eval_utils.py:52-58 | without NaN, Python `<` on floats is a strict total order (irreflexive, total, transitive, and its negation transitive); `+inf` is above every number |
| Objects.EmptyBuckets | cruw/eval/rod/load_txt.py:30 | the bucket dict has exactly the keys (f, c) with f < n_frame, c < n_class, each bound to [] |
| Argsort.Insert | cruw/eval/rod/rod_eval_utils.py:10 | inserting an index keeps the order descending by key with ties by index, and adds exactly that index |
| Argsort.ArgsortPrefix | cruw/eval/rod/rod_eval_utils.py:10 | the first n indices, sorted descending by key and stable |
| Argsort.StableArgsortDesc | cruw/eval/rod/rod_eval_utils.py:10 | the result is a stable descending argsort: a permutation of the indices, keys non-increasing, equal keys in index order |
| Argsort.Permute | cruw/eval/rod/rod_eval_utils.py:11 | `[xs[i] for i in inds]`: entry k is xs[inds[k]] |
| Argsort.SortedUnique | cruw/eval/rod/rod_eval_utils.py:10 | two stable descending orders over the same index set are equal |
| Argsort.ArgsortIsUnique | cruw/eval/rod/rod_eval_utils.py:10 | any stable descending argsort is the mergesort one |
| Argsort.PermutedKeysDescending | cruw/eval/rod/rod_eval_utils.py:98-99 | keys permuted by the argsort are non-increasing |
| RodMatch.Scores | cruw/eval/rod/rod_eval_utils.py:73 | the score list of the objects, position by position |
| RodMatch.Ids | cruw/eval/rod/rod_eval_utils.py:69-70 | the id list of the objects, position by position |
| RodMatch.SortByScore | cruw/eval/rod/rod_eval_utils.py:10-11 | the detections reordered with scores non-increasing, same count |
| RodMatch.SortByScoreIsStable | cruw/eval/rod/rod_eval_utils.py:10-11 | the sorted detections are `dts[p[i]]` for the unique stable descending argsort p |
| RodMatch.ScanFrom | cruw/eval/rod/rod_eval_utils.py:16-18 | the first exception of the pair loop from gt j, detection i on (gts outer, detections inner); its meaning is stated by `RodMatch.ScanFromSound` and `RodMatch.ScanFromSkip` |
| RodMatch.ScanFromSound | cruw/eval/rod/rod_eval_utils.py:16-18 | the fill order (gt-major, then detection) raises exactly when some pair raises, and the error is one of those pairs' errors |
| RodMatch.OlsEntriesDetermine | cruw/eval/rod/rod_eval_utils.py:14-18 | a D×G matrix of pairwise OLS values is unique |
| RodMatch.OlsDtsGts | cruw/eval/rod/rod_eval_utils.py:6-19 | missing bucket is KeyError; [] exactly when either bucket is empty; otherwise entry (i, j) is OLS(gt j, i-th detection after the stable sort); it fails exactly when some pair raises |
| RodMatch.OlsTable | cruw/eval/rod/rod_eval_utils.py:14-18 | the table of all pairwise OLS values, rows by sorted detection and columns by gt |
| RodMatch.ComputeOlsDtsGts | cruw/eval/rod/rod_eval_utils.py:6-19 | the nested fill loops compute `OlsDtsGts` |
| RodMatch.FillColumn | cruw/eval/rod/rod_eval_utils.py:17-18 | one gt's column is filled with its OLS values or the first error is returned; other columns are untouched |
| RodMatch.ScanFromSkip | cruw/eval/rod/rod_eval_utils.py:16-18 | pairs that have an OLS do not stop the fill loop: the scan continues past them |
| RodMatch.Seed | cruw/eval/rod/rod_eval_utils.py:48 | `min(t, 1-1e-10)`: at most t, below 1, one of the two |
| RodMatch.BestMatchUnique | cruw/eval/rod/rod_eval_utils.py:50-58 | at most one gt index is the best match of a detection |
| RodMatch.BestMatchFreeOnly | cruw/eval/rod/rod_eval_utils.py:52-53 | only whether a gt is already taken (> 0) matters to the choice, not the id stored |
| RodMatch.PickFrom | cruw/eval/rod/rod_eval_utils.py:50-58 | the gt loop from g on returns the best index so far or a later gt that is free; a taken gt or one whose OLS is below `iou` is skipped |
| RodMatch.PickFromIsBest | cruw/eval/rod/rod_eval_utils.py:50-58 | on a row without NaN the gt loop yields the best match: a free gt with OLS >= seed, maximal, ties to the last one, or -1 if none |
| RodMatch.PickFromPassesNaN | cruw/eval/rod/rod_eval_utils.py:52-58 | a free gt whose OLS is NaN is never skipped by `olss < iou` (NaN compares false): the loop returns that gt or a later one |
| RodMatch.Pick | cruw/eval/rod/rod_eval_utils.py:48-58 | the match of one detection is -1 or a free gt index, and on a row without NaN it is the best match |
| RodMatch.PickPassesNaN | cruw/eval/rod/rod_eval_utils.py:48-58 | with a free NaN gt h in the row the detection is matched to h or a later gt, never left unmatched |
| RodMatch.Zeros | cruw/eval/rod/rod_eval_utils.py:41-42 | an all-zero row of the given length |
| RodMatch.MatchPrefix | cruw/eval/rod/rod_eval_utils.py:46-64 | the rows after the first n detections have the right lengths, with one pick per detection, each -1 or a gt index |
| RodMatch.MatchThreshold | cruw/eval/rod/rod_eval_utils.py:45-64 | one threshold's dt/gt rows and the pick of every detection |
| RodMatch.MarksFollowPicks | cruw/eval/rod/rod_eval_utils.py:63-64 | a gt is marked (> 0) exactly when some earlier detection picked it; unpicked gts stay 0 |
| RodMatch.PicksDistinct | cruw/eval/rod/rod_eval_utils.py:52-53 | within one threshold no ground truth is matched twice |
| RodMatch.RowsRecordPairs | cruw/eval/rod/rod_eval_utils.py:60-64 | a matched detection stores its gt's id and that gt stores the detection's id; unmatched detections keep 0 |
| RodMatch.PairStep | cruw/eval/rod/rod_eval_utils.py:60-64 | one detection's step keeps those records, given that its pick is a gt no earlier detection picked |
| RodMatch.UnvisitedZero | cruw/eval/rod/rod_eval_utils.py:42 | detections not yet visited keep 0 in the dt row |
| RodMatch.ClaimedBy | cruw/eval/rod/rod_eval_utils.py:52 | the taken-marks of the gts picked so far |
| RodMatch.PicksPrefix | cruw/eval/rod/rod_eval_utils.py:46 | later detections do not change earlier picks (earlier detections claim first) |
| RodMatch.MatchIsGreedy | cruw/eval/rod/rod_eval_utils.py:46-58 | on a row without NaN, each detection's pick is the best match among gts not taken by higher-scored detections |
| RodMatch.CountNonZero | cruw/eval/rod/rod_eval_utils.py:110 | the number of matched entries is at most the row length |
| RodMatch.CountSet | cruw/eval/rod/rod_eval_utils.py:63-64 | writing an id into an unmatched slot adds one match |
| RodMatch.CountZeros | cruw/eval/rod/rod_eval_utils.py:41-42 | a fresh row has no matches |
| RodMatch.MatchCountsAgree | cruw/eval/rod/rod_eval_utils.py:63-64 | the dt row and gt row record the same number of matches |
| RodMatch.RowsAt | cruw/eval/rod/rod_eval_utils.py:41-64 | match rows of one threshold; with no OLS matrix they stay all zero |
| RodMatch.DtMatches | cruw/eval/rod/rod_eval_utils.py:42-63 | the T×D `dtMatches` array, row t from threshold t |
| RodMatch.GtMatches | cruw/eval/rod/rod_eval_utils.py:41-64 | the T×G `gtMatches` array, row t from threshold t |
| RodMatch.EvalImgSpec | cruw/eval/rod/rod_eval_utils.py:22-74 | missing bucket is KeyError; None exactly when both buckets are empty; otherwise the record has this frame and class and T rows of lengths D and G |
| RodMatch.RowOf | cruw/eval/rod/rod_eval_utils.py:41-42 | row t of a match array as a sequence |
| RodMatch.RowsOf | cruw/eval/rod/rod_eval_utils.py:41-42 | a match array as a sequence of rows |
| RodMatch.PickInRow | cruw/eval/rod/rod_eval_utils.py:48-58 | the gt loop over the taken row of `gtm` returns `Pick` |
| RodMatch.MatchOneThreshold | cruw/eval/rod/rod_eval_utils.py:46-64 | the detection loop writes row t of `gtm`/`dtm` as `MatchThreshold`; other rows are unchanged |
| RodMatch.RecordMatch | cruw/eval/rod/rod_eval_utils.py:63-64 | the two stores change exactly dtm[t, d] and gtm[t, m] |
| RodMatch.MatchAllThresholds | cruw/eval/rod/rod_eval_utils.py:45-64 | the threshold loop leaves `gtm`/`dtm` equal to `GtMatches`/`DtMatches` |
| RodMatch.EvaluateImg | cruw/eval/rod/rod_eval_utils.py:22-74 | `evaluate_img` computes `EvalImgSpec` |
| RodMatch.OlsDtsGtsShaped | cruw/eval/rod/rod_eval_utils.py:12-19 | a computed OLS matrix has the shape `evaluate_img` needs |
| RodMatch.OlsDtsGtsFinite | cruw/eval/rod/rod_eval_utils.py:14-18 | when every gt has positive range and a positive size prior, every OLS entry is finite and in (0, 1], so no row has NaN |
| RodMatch.OverconfidentDetectionRaises | cruw/eval/rod/rod_eval_utils.py:18 | a detection scored above the gt's 1.0 makes the OLS computation raise TypeError |
| RodMatch.NoTypeErrorWithinScoreRange | cruw/eval/rod/rod_eval_utils.py:18 | with gt scores 1.0, detection scores <= 1 and classes matching the bucket, no TypeError is raised |
| RodMatch.RowsAtMutual | cruw/eval/rod/rod_eval_utils.py:63-64 | matches are mutual: dtm[t,d] holds gt m's id exactly when gtm[t,m] holds d's id |
| RodMatch.PairsMutual | cruw/eval/rod/rod_eval_utils.py:63-64 | rows that record each pick on both sides, with 0 for unpicked entries, hold only mutual pairs |
| RodMatch.RowsAtCounts | cruw/eval/rod/rod_eval_utils.py:63-64 | per threshold the matched dts equal the matched gts, and are at most G |
| RodAccumulate.ClassEntries | cruw/eval/rod/rod_eval_utils.py:90 | `[evalImgs[i*n_class + c] for i in range(n_frame)]` has n_frame entries, else IndexError |
| RodAccumulate.ClassEntriesSound | cruw/eval/rod/rod_eval_utils.py:90 | the read succeeds exactly when every slot i*n_class + c exists, and entry i is that slot |
| RodAccumulate.Somes | cruw/eval/rod/rod_eval_utils.py:91-93 | the non-None records, no more and no fewer; empty exactly when all are None |
| RodAccumulate.NumDts | cruw/eval/rod/rod_eval_utils.py:95-103 | `nd`: the pooled detection count, the length of `PooledScores` and of every `PooledMatches` row |
| RodAccumulate.NumGts | cruw/eval/rod/rod_eval_utils.py:102-104 | `ng`: the pooled gt count, the class's `n_objects` entry (`RodAccumulate.ClassColumn`) |
| RodAccumulate.PooledScores | cruw/eval/rod/rod_eval_utils.py:95 | the concatenated detection scores, one per pooled detection |
| RodAccumulate.PooledMatches | cruw/eval/rod/rod_eval_utils.py:101 | the concatenated matches of one threshold row, one per pooled detection |
| RodAccumulate.CountZero | cruw/eval/rod/rod_eval_utils.py:111 | unmatched plus matched entries make up the row |
| RodAccumulate.TpCum | cruw/eval/rod/rod_eval_utils.py:112 | the cumulative TP sum has one entry per detection |
| RodAccumulate.FpCum | cruw/eval/rod/rod_eval_utils.py:113 | the cumulative FP sum has one entry per detection |
| RodAccumulate.TpCumCounts | cruw/eval/rod/rod_eval_utils.py:110-112 | tp[i] is the number of matched detections among the first i+1 |
| RodAccumulate.FpCumCounts | cruw/eval/rod/rod_eval_utils.py:111-113 | fp[i] is the number of unmatched detections among the first i+1 |
| RodAccumulate.TpPlusFp | cruw/eval/rod/rod_eval_utils.py:110-113 | tp[i] + fp[i] = i + 1 on every row |
| RodAccumulate.TpNonDecreasing | cruw/eval/rod/rod_eval_utils.py:112 | the cumulative TP count never decreases |
| RodAccumulate.RecallCurve | cruw/eval/rod/rod_eval_utils.py:118 | rc[i]·ng = tp[i], and rc is 0 when ng = 0 (exact division in place of the epsilon) |
| RodAccumulate.PrecisionCurve | cruw/eval/rod/rod_eval_utils.py:119 | pr[i]·(tp[i]+fp[i]) = tp[i], and pr lies in [0, 1] |
| RodAccumulate.MaxFrom | cruw/eval/rod/rod_eval_utils.py:133-135 | the largest of s[i..], folded from the right; `RodAccumulate.MaxFromIsMax` proves it bounds every entry from i on and is one of them |
| RodAccumulate.MaxFromIsMax | cruw/eval/rod/rod_eval_utils.py:133-135 | the backward fold from i bounds every entry from i on and is one of them |
| RodAccumulate.SuffixMax | cruw/eval/rod/rod_eval_utils.py:133-135 | entry i is the maximum of s[i..]: an element of s[i..] and at least every later entry |
| RodAccumulate.SuffixMaxShape | cruw/eval/rod/rod_eval_utils.py:133-135 | the envelope is non-increasing and keeps the bounds of its input |
| RodAccumulate.Envelope | cruw/eval/rod/rod_eval_utils.py:133-135 | the backward loop leaves `pr` equal to the suffix maxima of the old `pr` |
| RodAccumulate.SearchLeft | cruw/eval/rod/rod_eval_utils.py:137 | left `searchsorted`: every earlier rc is < x, and rc at the result is >= x |
| RodAccumulate.SearchLeftMonotone | cruw/eval/rod/rod_eval_utils.py:137 | on a sorted curve a larger level gives a position at least as large |
| RodAccumulate.Positions | cruw/eval/rod/rod_eval_utils.py:137 | one left-searchsorted position per recall level |
| RodAccumulate.FirstUnreachable | cruw/eval/rod/rod_eval_utils.py:138-143 | the first position past the curve: everything before it is in range, it is out of range |
| RodAccumulate.Resampled | cruw/eval/rod/rod_eval_utils.py:120-143 | one sample per recall level (`q` and `ss` keep their R entries) |
| RodAccumulate.Resample | cruw/eval/rod/rod_eval_utils.py:138-143 | the try-loop yields `Resampled` of pr and of the sorted scores |
| RodAccumulate.ResampledAt | cruw/eval/rod/rod_eval_utils.py:120-143 | q[r] = pr[inds[r]] before the first unreachable level and 0 from it on |
| RodAccumulate.ResampledNonIncreasing | cruw/eval/rod/rod_eval_utils.py:137-143 | resampling a non-increasing non-negative curve at sorted positions is non-increasing |
| RodAccumulate.ResampledBounds | cruw/eval/rod/rod_eval_utils.py:120-140 | resampled values keep the curve's bounds (the 0 fill included) |
| RodAccumulate.SortedMatches | cruw/eval/rod/rod_eval_utils.py:101 | the pooled matches of a row in the global score order |
| RodAccumulate.SortedScores | cruw/eval/rod/rod_eval_utils.py:99 | the pooled scores in the global score order |
| RodAccumulate.PooledSortDescending | cruw/eval/rod/rod_eval_utils.py:98-99 | the global re-sort is a stable descending argsort and the sorted scores are non-increasing |
| RodAccumulate.RecallAt | cruw/eval/rod/rod_eval_utils.py:118 | one recall value per pooled detection |
| RodAccumulate.PrecisionAt | cruw/eval/rod/rod_eval_utils.py:119 | one precision value per pooled detection |
| RodAccumulate.ClassCurve | cruw/eval/rod/rod_eval_utils.py:115-145 | one threshold row's precision and score samples, one per recall level |
| RodAccumulate.ComputeCurve | cruw/eval/rod/rod_eval_utils.py:115-145 | the per-threshold body computes `ClassCurve` |
| RodAccumulate.RecallNonDecreasing | cruw/eval/rod/rod_eval_utils.py:118 | recall is non-decreasing along the detections |
| RodAccumulate.RecallAtNonDecreasing | cruw/eval/rod/rod_eval_utils.py:112-118 | the pooled recall curve is non-decreasing |
| RodAccumulate.ClassCurveInUnit | cruw/eval/rod/rod_eval_utils.py:119-144 | every resampled precision lies in [0, 1] |
| RodAccumulate.ClassCurveMonotone | cruw/eval/rod/rod_eval_utils.py:133-144 | for sorted recall levels the resampled precision q is non-increasing |
| RodAccumulate.ClassCurveSamples | cruw/eval/rod/rod_eval_utils.py:133-143 | q[r] is the envelope at the first i with rc[i] >= level r (the maximum precision from i on), or 0 past the achieved recall |
| RodAccumulate.SomesShaped | cruw/eval/rod/rod_eval_utils.py:91 | the kept records keep their shape |
| RodAccumulate.ClassRecords | cruw/eval/rod/rod_eval_utils.py:90-91 | a class's non-None records, all shaped |
| RodAccumulate.SummaryOf | cruw/eval/rod/rod_eval_utils.py:92-145 | a class summary that fits the tables, and "no records" exactly when E is empty |
| RodAccumulate.SummariesUpTo | cruw/eval/rod/rod_eval_utils.py:89-145 | one fitting summary per class read so far |
| RodAccumulate.SummariesUpToAt | cruw/eval/rod/rod_eval_utils.py:89-93 | entry c is the summary of class c's records |
| RodAccumulate.CountOf | cruw/eval/rod/rod_eval_utils.py:105 | a class's object count, 0 for a class without records; written into `n_objects` (`RodAccumulate.ClassColumn`) |
| RodAccumulate.RecallOf | cruw/eval/rod/rod_eval_utils.py:123-126 | a class's recall at threshold t, -1 for a class without records (`RodAccumulate.ClassColumn`) |
| RodAccumulate.PrecisionOf | cruw/eval/rod/rod_eval_utils.py:144 | a class's resampled precision, -1 for a class without records (`RodAccumulate.PrecisionInRange`) |
| RodAccumulate.ScoreOf | cruw/eval/rod/rod_eval_utils.py:145 | a class's resampled score, -1 for a class without records (`RodAccumulate.ScoreTable`) |
| RodAccumulate.PrecisionTable | cruw/eval/rod/rod_eval_utils.py:84-144 | the T×R×K precision array: a class's curve value, or -1 for a class without records |
| RodAccumulate.ScoreTable | cruw/eval/rod/rod_eval_utils.py:86-145 | the T×R×K score array, with -1 for a class without records |
| RodAccumulate.RecallTable | cruw/eval/rod/rod_eval_utils.py:85-126 | the T×K recall array, with -1 for a class without records |
| RodAccumulate.Counts | cruw/eval/rod/rod_eval_utils.py:87-105 | the per-class object counts |
| RodAccumulate.AccumulateSpec | cruw/eval/rod/rod_eval_utils.py:77-154 | IndexError exactly when some class reads a missing slot; otherwise `counts` = [T, R, K] and K object counts |
| RodAccumulate.StoreCurve | cruw/eval/rod/rod_eval_utils.py:124-145 | one threshold's curve is written into column (t, c) of the arrays and nothing else changes |
| RodAccumulate.StoreClass | cruw/eval/rod/rod_eval_utils.py:115-145 | the threshold loop writes class c's column from its summary and nothing else |
| RodAccumulate.CurveOf | cruw/eval/rod/rod_eval_utils.py:115-145 | the curve computed for threshold t is the class summary's curve t, entry by entry |
| RodAccumulate.AccumulateClass | cruw/eval/rod/rod_eval_utils.py:90-145 | the class body either fails on a missing slot or writes class c's count and columns |
| RodAccumulate.AccumulateClasses | cruw/eval/rod/rod_eval_utils.py:89-145 | the class loop fills every array from the class summaries |
| RodAccumulate.Accumulate | cruw/eval/rod/rod_eval_utils.py:77-154 | `accumulate` computes `AccumulateSpec` |
| RodAccumulate.AccumulateReadsAll | cruw/eval/rod/rod_eval_utils.py:89-90 | accumulate succeeds exactly when n_frame·n_class <= len(evalImgs) |
| RodAccumulate.ClassColumn | cruw/eval/rod/rod_eval_utils.py:84-126 | a class without records keeps -1 and count 0; otherwise count = total gts and recall = final TP/ng, or 0 when there are no detections or no gts |
| RodAccumulate.AccumulateShaped | cruw/eval/rod/rod_eval_utils.py:84-153 | the result has the T×R×K, T×K and K shapes |
| RodAccumulate.PrecisionInRange | cruw/eval/rod/rod_eval_utils.py:84-144 | each precision entry is -1 or lies in [0, 1] |
| RodSummarize.SelectUpTo | cruw/eval/rod/rod_eval_utils.py:167-169 | `np.where(olsThr == olsThrs)` over a prefix: increasing indices that are exactly the matching thresholds (all of them for None) |
| RodSummarize.Selected | cruw/eval/rod/rod_eval_utils.py:167-176 | the selected threshold rows: increasing, in range, exactly those equal to olsThr (all rows for None) |
| RodSummarize.SelectAll | cruw/eval/rod/rod_eval_utils.py:167 | with no threshold every row 0..T-1 is selected in order |
| RodSummarize.PrecisionValues | cruw/eval/rod/rod_eval_utils.py:182 | `s[:, :, classid]` row by row: R entries per selected threshold, each a precision entry of the class (`RodSummarize.PrecisionValuesFrom`) |
| RodSummarize.PrecisionValuesFrom | cruw/eval/rod/rod_eval_utils.py:182 | every value of `s[:, :, classid]` is a precision entry of that class |
| RodSummarize.RecallValues | cruw/eval/rod/rod_eval_utils.py:188 | `s[:, classid]`: the recall of class c at each selected threshold |
| RodSummarize.ClassValues | cruw/eval/rod/rod_eval_utils.py:180-188 | `s_class`: the precision entries for AP, the recall entries for AR (`RodSummarize.KeptInUnit`, `RodSummarize.RecallMeanOverThresholds`) |
| RodSummarize.Kept | cruw/eval/rod/rod_eval_utils.py:183-189 | `s_class[s_class > -1]` is no longer than s_class |
| RodSummarize.KeptMembers | cruw/eval/rod/rod_eval_utils.py:183-189 | a value is kept exactly when it occurs and is > -1 |
| RodSummarize.KeptAll | cruw/eval/rod/rod_eval_utils.py:189 | when every value is > -1 nothing is dropped |
| RodSummarize.Sum | cruw/eval/rod/rod_eval_utils.py:186 | the sum behind `np.mean`; `RodSummarize.SumBounds` bounds it by the length for values in [0, 1] |
| RodSummarize.Mean | cruw/eval/rod/rod_eval_utils.py:186 | `np.mean` of a non-empty array; `RodSummarize.MeanInUnit` keeps it in [0, 1] |
| RodSummarize.Share | cruw/eval/rod/rod_eval_utils.py:186 | a class's weighted contribution count/total·mean; `RodSummarize.AddClassBound` bounds it by count/total |
| RodSummarize.SumBounds | cruw/eval/rod/rod_eval_utils.py:186 | a sum of values in [0, 1] lies in [0, n] |
| RodSummarize.MeanInUnit | cruw/eval/rod/rod_eval_utils.py:186 | `np.mean` of values in [0, 1] lies in [0, 1] |
| RodSummarize.AddClass | cruw/eval/rod/rod_eval_utils.py:183-192 | a class with no kept entry adds nothing; otherwise the sum becomes NaN exactly when the total count is 0 or it was NaN |
| RodSummarize.Fold | cruw/eval/rod/rod_eval_utils.py:179-192 | `mean_s` after n classes; NaN exactly when total = 0 and some class has entries (`RodSummarize.FoldNaN`), else in [0, count/total] (`RodSummarize.FoldBound`) |
| RodSummarize.AllKept | cruw/eval/rod/rod_eval_utils.py:180-189 | the kept entries of every class, class by class |
| RodSummarize.Partial | cruw/eval/rod/rod_eval_utils.py:179-192 | `mean_s` after the first n classes of the class loop; `RodSummarize.SummarizeStat` computes it, `RodSummarize.PartialNaN` and `RodSummarize.PartialBound` characterise it |
| RodSummarize.PartialStep | cruw/eval/rod/rod_eval_utils.py:179-192 | one more class adds exactly that class's kept values to `mean_s` |
| RodSummarize.AddClassStat | cruw/eval/rod/rod_eval_utils.py:181-192 | one iteration of the class loop computes `AddClass` for that class |
| RodSummarize.SummarizeStat | cruw/eval/rod/rod_eval_utils.py:160-193 | `_summarize` computes the count-weighted sum over all classes (`Partial`) |
| RodSummarize.FoldNaN | cruw/eval/rod/rod_eval_utils.py:179-192 | the weighted sum is NaN exactly when the total is 0 and some class has an entry |
| RodSummarize.PartialNaN | cruw/eval/rod/rod_eval_utils.py:162-192 | `_summarize` is NaN exactly when there are no objects and some class has an entry > -1 |
| RodSummarize.AbsentClassAddsNothing | cruw/eval/rod/rod_eval_utils.py:183-190 | a class without entries > -1 leaves the sum unchanged |
| RodSummarize.KeptInUnit | cruw/eval/rod/rod_eval_utils.py:182-189 | with entries -1 or in [0, 1], every kept value lies in [0, 1] |
| RodSummarize.AddClassBound | cruw/eval/rod/rod_eval_utils.py:186-192 | adding a class raises the sum by at most count/total and keeps it non-negative |
| RodSummarize.FoldBound | cruw/eval/rod/rod_eval_utils.py:179-192 | with a positive total the sum over the first n classes lies in [0, their count/total] |
| RodSummarize.PartialBound | cruw/eval/rod/rod_eval_utils.py:179-192 | with a positive total the partial statistic lies in [0, prefix count/total] |
| RodSummarize.StatInUnit | cruw/eval/rod/rod_eval_utils.py:160-193 | with a positive total and entries in range, a statistic is a number in [0, 1] |
| RodSummarize.RecallMeanOverThresholds | cruw/eval/rod/rod_eval_utils.py:173-192 | AR's class values are the class's recall at every threshold (AR is the mean of recall over all thresholds) |
| RodSummarize.AccumulatedAPInUnit | cruw/eval/rod/rod_eval_utils.py:77-193 | AP from an accumulated result with some objects is a number in [0, 1] |
| RodSummarize.Stats | cruw/eval/rod/rod_eval_utils.py:195-215 | 12 statistics with gl, 2 without |
| RodSummarize.SummarizeKps | cruw/eval/rod/rod_eval_utils.py:195-209 | AP overall, at .5 to .9, then AR overall, at .5 to .9 |
| RodSummarize.SummarizeKpsCur | cruw/eval/rod/rod_eval_utils.py:211-215 | AP overall and AR overall |
| RodSummarize.Summarize | cruw/eval/rod/rod_eval_utils.py:157-223 | `summarize` returns `Stats`: 12 entries with gl, 2 without |
| LoadTxt.IndexOf | cruw/eval/rod/load_txt.py:17 | `classes.index`: the first position of the name, ValueError when absent |
| LoadTxt.GtAsText | cruw/eval/rod/load_txt.py:13-24 | a ground-truth line as a text line scored 1.0 (`LoadTxt.GtScoreIsOne`) |
| LoadTxt.SubAsText | cruw/eval/rod/load_txt.py:60-73 | a submission line as a text line with its own score (`LoadTxt.SubScoreIsLineScore`) |
| LoadTxt.InFov | cruw/eval/rod/load_txt.py:40-43 | the field-of-view test: 1 <= range <= 25 and -60° <= angle <= 60°; `LoadTxt.NumberSnoc` and `LoadTxt.TextReadComplete` show it decides exactly which accepted lines are stored |
| LoadTxt.ParseText | cruw/eval/rod/load_txt.py:13-24 | a line becomes an object of its frame, position, class index and score, or fails on an unknown class |
| LoadTxt.LineError | cruw/eval/rod/load_txt.py:17-25 | a line is accepted exactly when its class is known and `dets[frame_id]` is a valid index |
| LoadTxt.FirstError | cruw/eval/rod/load_txt.py:12-28 | no error exactly when every line is accepted; otherwise the error of some line |
| LoadTxt.FirstErrorPrefix | cruw/eval/rod/load_txt.py:12-28 | the first error raised in a prefix is the error of the whole file |
| LoadTxt.SlotContents | cruw/eval/rod/load_txt.py:25-28 | everything in `dets[f]` comes from an accepted line of frame f |
| LoadTxt.SlotPrefix | cruw/eval/rod/load_txt.py:12-28 | the slot after a prefix of the lines is a prefix of the final slot |
| LoadTxt.SlotOf | cruw/eval/rod/load_txt.py:25-28 | the slot an accepted line is appended to: its frame index, normalised as Python's `dets[frame_id]` does, below n_frame |
| LoadTxt.SlotPos | cruw/eval/rod/load_txt.py:25-28 | the position of a line's object in its slot: the number of earlier lines appended to that slot (`LoadTxt.SlotAt`) |
| LoadTxt.SlotSnoc | cruw/eval/rod/load_txt.py:25-28 | an accepted line appends its object to its own slot |
| LoadTxt.SlotAt | cruw/eval/rod/load_txt.py:12-28 | an accepted line's object is in its slot at position `SlotPos`: no accepted line is lost in the first loop |
| LoadTxt.SlotPosOrder | cruw/eval/rod/load_txt.py:12-28 | within one slot, objects keep their file order |
| LoadTxt.SlotPosBefore | cruw/eval/rod/load_txt.py:12-28 | a later line sees more objects in an earlier accepted line's slot |
| LoadTxt.Slots | cruw/eval/rod/load_txt.py:11-28 | `dets` has n_frame slots, slot f holding frame f's objects |
| LoadTxt.FlatPos | cruw/eval/rod/load_txt.py:12-36 | where an accepted line's object sits in the flattened slots, the entry there being (its slot, its object) |
| LoadTxt.LineId | cruw/eval/rod/load_txt.py:31-48 | the id an accepted line's object receives if kept: one more than the kept objects before it in (slot, file) order (`LoadTxt.TextReadComplete`) |
| LoadTxt.GroupByFrame | cruw/eval/rod/load_txt.py:11-28 | the first loop raises the first line's error, or yields `Slots` |
| LoadTxt.Tag | cruw/eval/rod/load_txt.py:32-36 | a frame's objects paired with the frame index |
| LoadTxt.Flatten | cruw/eval/rod/load_txt.py:32-36 | the objects in frame order: every entry comes from its frame's slot and frame indices never decrease; `LoadTxt.FlattenAt` places each slot object at its offset |
| LoadTxt.Offset | cruw/eval/rod/load_txt.py:32-36 | the number of objects in the slots before frame f; `LoadTxt.OffsetStep` and `LoadTxt.OffsetMonotone` relate consecutive frames |
| LoadTxt.OffsetStep | cruw/eval/rod/load_txt.py:32-36 | frame f+1 starts len(dets[f]) entries after frame f |
| LoadTxt.OffsetMonotone | cruw/eval/rod/load_txt.py:32-36 | later frames start no earlier |
| LoadTxt.FlattenAt | cruw/eval/rod/load_txt.py:32-36 | object k of frame f is entry Offset(f) + k of the flattened list: nothing is lost in the frame loop |
| LoadTxt.FlattenOrder | cruw/eval/rod/load_txt.py:32-36 | position (f1, k1) comes before (f2, k2) exactly when f1 < f2, or f1 = f2 and k1 < k2 |
| LoadTxt.Number | cruw/eval/rod/load_txt.py:31-48 | the kept objects: ids 1, 2, 3, … in order, all in the field of view, keyed (frame, class id), each a copy of an input object |
| LoadTxt.NumberPrefix | cruw/eval/rod/load_txt.py:31-48 | later objects do not change earlier ids |
| LoadTxt.NumberSnoc | cruw/eval/rod/load_txt.py:40-48 | an in-view object gets the next id; an out-of-view one is dropped and takes no id |
| LoadTxt.NumberAt | cruw/eval/rod/load_txt.py:40-48 | an in-view object at position q is kept, with id one more than the kept objects before it and key (frame, class id) |
| LoadTxt.NumberCountIncreases | cruw/eval/rod/load_txt.py:40-48 | an in-view object makes every longer prefix keep strictly more objects |
| LoadTxt.NumberedOrder | cruw/eval/rod/load_txt.py:40-48 | of two in-view objects the earlier one gets the smaller id, and only it |
| LoadTxt.Select | cruw/eval/rod/load_txt.py:47 | a bucket holds only objects keyed to it |
| LoadTxt.SelectComplete | cruw/eval/rod/load_txt.py:47 | every kept object lands in the bucket of its key |
| LoadTxt.BucketsOf | cruw/eval/rod/load_txt.py:30-47 | dense keys, each bucket the objects keyed to it, in order |
| LoadTxt.BucketsOfEmpty | cruw/eval/rod/load_txt.py:30 | with nothing kept every bucket is empty |
| LoadTxt.BucketsOfSnoc | cruw/eval/rod/load_txt.py:47 | keeping one more object appends it to its bucket only |
| LoadTxt.AssignSpec | cruw/eval/rod/load_txt.py:30-48 | the second pass fails only with KeyError |
| LoadTxt.AssignIds | cruw/eval/rod/load_txt.py:30-48 | the frame and object loops with the `id` counter compute `AssignSpec` |
| LoadTxt.EarlyKeyError | cruw/eval/rod/load_txt.py:47 | a kept object whose class has no bucket makes the second pass fail |
| LoadTxt.ReadTextSpec | cruw/eval/rod/load_txt.py:6-98 | errors are ValueError, IndexError or KeyError; a bad line's error comes first |
| LoadTxt.Kept | cruw/eval/rod/load_txt.py:31-48 | the kept objects of a read in numbering order; `LoadTxt.KeptEntry` and `LoadTxt.KeptLine` say where each comes from |
| LoadTxt.GtTexts | cruw/eval/rod/load_txt.py:13-46 | ground-truth lines read with score 1.0 |
| LoadTxt.SubTexts | cruw/eval/rod/load_txt.py:60-65 | submission lines read with their own score |
| LoadTxt.ReadText | cruw/eval/rod/load_txt.py:6-98 | the two passes compute `ReadTextSpec` |
| LoadTxt.ReadGtTxt | cruw/eval/rod/load_txt.py:6-50 | `read_gt_txt` computes `ReadTextSpec` of the lines scored 1.0 |
| LoadTxt.ReadSubTxt | cruw/eval/rod/load_txt.py:53-98 | `read_sub_txt` computes `ReadTextSpec` of the lines with their scores |
| LoadTxt.TextReadBuckets | cruw/eval/rod/load_txt.py:30-47 | a successful read has a key for every (frame, class), and buckets of the kept objects |
| LoadTxt.KeptEntry | cruw/eval/rod/load_txt.py:32-48 | each kept object comes from some frame's slot, with id = position + 1 |
| LoadTxt.SlotEntry | cruw/eval/rod/load_txt.py:12-28 | each slot object comes from an accepted line of that frame |
| LoadTxt.KeptLine | cruw/eval/rod/load_txt.py:12-48 | each kept object comes from a line with a known class of its frame |
| LoadTxt.TextReadKeyError | cruw/eval/rod/load_txt.py:47 | with valid lines, the read raises KeyError exactly when some kept object's class id is >= n_class |
| LoadTxt.TextReadProvenance | cruw/eval/rod/load_txt.py:17-95 | every stored object has 1 <= range <= 25 and -60° <= angle <= 60°, a class equal to `classes.index(name)` and its bucket's class, and comes from a line of its bucket's frame; the converse, every in-view line stored, is `LoadTxt.TextReadComplete` |
| LoadTxt.TextReadIds | cruw/eval/rod/load_txt.py:31-96 | ids are 1..n over the kept objects, unique across buckets and increasing within each bucket; the order across buckets is `LoadTxt.TextReadOrder` |
| LoadTxt.TextReadComplete | cruw/eval/rod/load_txt.py:12-48 | a successful read stores every line in the field of view: the line is accepted, and its object with id `LineId` is in the (slot, class index) bucket |
| LoadTxt.TextReadOrder | cruw/eval/rod/load_txt.py:31-48 | ids follow (frame slot, file position): one in-view line's id is smaller than another's exactly when its slot is smaller, or the slot is the same and it comes first; distinct lines get distinct ids |
| LoadTxt.BucketsHoldEntries | cruw/eval/rod/load_txt.py:47 | every kept object is in its bucket, and buckets hold nothing else |
| LoadTxt.BucketsIdsUnique | cruw/eval/rod/load_txt.py:45-48 | no two stored objects share an id |
| LoadTxt.BucketsIdsIncrease | cruw/eval/rod/load_txt.py:45-48 | ids lie in 1..n and increase within each bucket (frame, then file order) |
| LoadTxt.SelectIncreasing | cruw/eval/rod/load_txt.py:45-48 | ids within one bucket increase |
| LoadTxt.GtScoreIsOne | cruw/eval/rod/load_txt.py:46 | every ground-truth object has score 1.0 |
| LoadTxt.SubScoreIsLineScore | cruw/eval/rod/load_txt.py:65-95 | every submission object carries the unclamped score, range and angle of a line of its frame |
| LoadTxt.RodnetOutcome | cruw/eval/rod/load_txt.py:114-141 | IndexError exactly on a bad grid index; kept exactly in the field of view, with id = line number + 1, clamped conf, grid range and angle |
| LoadTxt.RodnetEntries | cruw/eval/rod/load_txt.py:112-141 | errors are IndexError or KeyError; every kept entry is its line's outcome, with increasing ids; the converse, every kept line stored, is `LoadTxt.RodnetEntriesComplete` |
| LoadTxt.RodnetErrorPrefix | cruw/eval/rod/load_txt.py:114-141 | the first raising line decides the error |
| LoadTxt.RodnetEntriesComplete | cruw/eval/rod/load_txt.py:114-141 | on success no line raised, and every line that passes the filter has its (key, object) among the entries |
| LoadTxt.RodnetLineStored | cruw/eval/rod/load_txt.py:114-141 | the same for one line: its outcome is Ok, and a kept line's (key, object) is among the entries |
| LoadTxt.RodnetEntriesStep | cruw/eval/rod/load_txt.py:114-141 | a successful pass extends the pass over all but the last line, whose outcome is Ok and, when kept, appended |
| LoadTxt.RodnetIdsAreKeptLines | cruw/eval/rod/load_txt.py:114-141 | id n + 1 occurs exactly when line n passes the filter: dropped lines leave gaps in the ids, kept lines never do |
| LoadTxt.RodnetReadComplete | cruw/eval/rod/load_txt.py:112-141 | every line that passes the filter is stored in the bucket of its (frame, class) key |
| LoadTxt.ReadRodnetRes | cruw/eval/rod/load_txt.py:101-143 | an empty file gives None; otherwise the buckets of `RodnetEntries` or its error |
| LoadTxt.RodnetIdsSkipDroppedLines | cruw/eval/rod/load_txt.py:127-132 | an illustration of `LoadTxt.RodnetIdsAreKeptLines` on two lines: a dropped first line leaves id 2 as the only id |
| Metrics.Ols | cruw/eval/metrics.py:98-101 | on Python floats: ZeroDivisionError exactly when scale²·kappa = 0; otherwise exp of minus the exponent |
| Metrics.OlsExponent | cruw/eval/metrics.py:100 | `dist ** 2 / 2 / (scale ** 2 * kappa)`; `Metrics.ExponentNonNegative` proves it >= 0 and 0 exactly at distance 0 |
| Metrics.OlsNumpy | cruw/eval/metrics.py:98-101 | on numpy float64: the Python value whenever that exists; with a zero denominator NaN exactly when dist = 0, +inf exactly when dist != 0 and kappa < 0, and 0.0 when dist != 0 and kappa >= 0 |
| Metrics.OlsAtZeroDistance | cruw/eval/metrics.py:98-101 | OLS at distance 0 is 1 |
| Metrics.ExponentNonNegative | cruw/eval/metrics.py:100 | the exponent is >= 0, and 0 exactly at distance 0 |
| Metrics.OlsInUnitInterval | cruw/eval/metrics.py:98-101 | OLS lies in (0, 1] and is 1 exactly at distance 0 |
| Metrics.OlsDecreasesWithDistance | cruw/eval/metrics.py:98-101 | OLS strictly decreases with distance |
| Metrics.OlsIncreasesWithKappa | cruw/eval/metrics.py:98-101 | OLS strictly increases with the size prior |
| Metrics.DenominatorPositive | cruw/eval/metrics.py:100 | a non-zero scale and positive kappa never divide by zero |
| Metrics.Kappa | cruw/eval/metrics.py:23-34 | kappa = sizes[classes[c]]/100, with IndexError/KeyError on a bad class |
| Metrics.GetOlsXy | cruw/eval/metrics.py:69-95 | no TypeError on a class mismatch; the larger class id is used |
| Metrics.GetOlsRa | cruw/eval/metrics.py:38-66 | on numpy values: never TypeError (a class mismatch uses the larger class) and never ZeroDivisionError; the only errors are the class lookups |
| Metrics.GetOlsBtwObjects | cruw/eval/metrics.py:6-35 | TypeError exactly when the classes differ or obj1's score is below obj2's; never ZeroDivisionError (numpy division) |
| Metrics.GroundTruthAtOrigin | cruw/eval/metrics.py:6-35 | a gt at range 0 gives NaN for a detection at the same point, 0.0 for any other with kappa >= 0, and +inf with kappa < 0 |
| Metrics.BtwObjectsFinite | cruw/eval/metrics.py:6-35 | a gt at positive range with a positive size prior gives a finite OLS in (0, 1] for every detection past the guards |
| Metrics.ScoreGuardOnGroundTruth | cruw/eval/metrics.py:19-21 | called as (gt with score 1.0, dt), the guard fires exactly when the detection scores above 1 |
| Metrics.BtwObjectsIsRa | cruw/eval/metrics.py:6-66 | past the guards the object form equals the range-angle form |
| Metrics.RaUsesLargerClass | cruw/eval/metrics.py:48-53 | on a mismatch the range-angle form behaves as if both had the larger class id |
| Metrics.RaIsXyOfRamapPoints | cruw/eval/metrics.py:59-95 | the range-angle form is the Cartesian form after `pol2cart_ramap`: the same value when that exists, the same lookup error, and a number 0.0 or NaN/inf where the Python form would divide by zero |
| Metrics.RaScaleIsFirstRange | cruw/eval/metrics.py:63-66 | the scale is the first object's range only: the value is the numpy OLS of the mapped distance with scale o1's range |
| Metrics.GetOlsXyNotSymmetric | cruw/eval/metrics.py:93 | an illustration: swapping two concrete points changes the value, because the scale is the first point's norm |
| Metrics.Distance | cruw/eval/metrics.py:61-63 | `(dx ** 2 + dy ** 2) ** 0.5` is a true distance: non-negative, its square the sum of squares, 0 exactly for equal points |
| Metrics.OlsBetweenPoints | cruw/eval/metrics.py:90-95 | the shared tail on Python floats: ZeroDivisionError exactly when the first point's norm squared times kappa is 0 |
| Metrics.OlsBetweenPointsNumpy | cruw/eval/metrics.py:59-66 | the same tail on numpy values, agreeing with the Python one wherever that does not raise |
| Metrics.RamapDistance | cruw/eval/metrics.py:59-63 | the distance of two range-angle points after `pol2cart_ramap`, non-negative |
| MappingOps.ArgMinGap | cruw/mapping/ops.py:7 | `argmin`: a minimal gap, strictly smaller than every earlier one |
| MappingOps.FindNearest | cruw/mapping/ops.py:4-8 | ValueError exactly on an empty array; otherwise an in-bounds index with `array[idx]`, none strictly closer, the first of the equally close |
| MappingOps.Idx2Ra | cruw/mapping/ops.py:11-15 | `(range_grid[i], angle_grid[j])` with numpy indexing, IndexError out of bounds |
| MappingOps.Ra2Idx | cruw/mapping/ops.py:18-22 | each axis is `find_nearest` on its own grid |
| MappingOps.FindNearestOfEntry | cruw/mapping/ops.py:4-8 | on a grid without repeats a grid value's nearest bin is its own |
| MappingOps.Ra2IdxInvertsIdx2Ra | cruw/mapping/ops.py:11-22 | `ra2idx(idx2ra(i, j)) == (i, j)` for grids with distinct entries |
| GenerateGrids.CroppedRangeGrid | cruw/mapping/generate_grids.py:15-27 | rsize entries (i+crop)·Fs/(rsize+2·crop)·c/sweepSlope/2; ZeroDivisionError exactly for an empty FFT |
| GenerateGrids.BinDistance | cruw/mapping/generate_grids.py:23-25 | the distance of FFT bin i, i·Fs/fft_Rang·c/sweepSlope/2; `GenerateGrids.CroppedRangeGridIncreasing` proves it strictly increasing in i |
| GenerateGrids.CroppedRangeGridIncreasing | cruw/mapping/generate_grids.py:23-26 | with Fs and sweepSlope > 0 the range grid is strictly increasing |
| GenerateGrids.Confmap2Ra | cruw/mapping/generate_grids.py:6-40 | the range branch is the cropped grid; the angle branch maps linspace of sines back through arcsin (degrees for 'deg'); a bad radordeg raises TypeError; another name gives None |
| GenerateGrids.Labelmap2Ra | cruw/mapping/generate_grids.py:43-77 | the range branch is the cropped grid reversed; the angle branch is linspace in radians or degrees; TypeError and None as in the source |
| GenerateGrids.LabelRangeGridDecreasing | cruw/mapping/generate_grids.py:59-65 | the label range grid has rsize_label entries and is strictly decreasing |
| GenerateGrids.LabelAngleGridShape | cruw/mapping/generate_grids.py:67-74 | asize_label evenly spaced entries from ra_min_label to ra_max_label inclusive |
| GenerateGrids.OpenLinspace | cruw/mapping/generate_grids.py:87-89 | linspace without endpoint has num entries |
| GenerateGrids.NegatedTail | cruw/mapping/generate_grids.py:90 | `-xline[1:]` |
| GenerateGrids.XzGridZLine | cruw/mapping/generate_grids.py:87 | zline has xz_dim[0] entries i·zrange/xz_dim[0], starting at 0 and stopping one step short of zrange |
| GenerateGrids.XLineValues | cruw/mapping/generate_grids.py:88-90 | the x line has 2o+1 entries (k - o)·zreso |
| GenerateGrids.XzGridXValues | cruw/mapping/generate_grids.py:86-90 | xline has 2·⌊xz_dim[1]/2⌋+1 entries (k - ⌊xz_dim[1]/2⌋)·zreso |
| GenerateGrids.XLine | cruw/mapping/generate_grids.py:88-90 | the x line; `GenerateGrids.XLineValues` gives its 2o+1 entries (k - o)·zreso |
| GenerateGrids.XzGrid | cruw/mapping/generate_grids.py:80-91 | `get_xzgrid` returns (xline, zline); `GenerateGrids.XzGridZLine`, `GenerateGrids.XzGridXValues` and `GenerateGrids.XzGridXSymmetric` state both |
| GenerateGrids.XzGridXSymmetric | cruw/mapping/generate_grids.py:86-90 | xline is 0 at its centre and symmetric about it |
| CoorTransform.Pol2CartRamap | cruw/mapping/coor_transform.py:28-37 | under sin² + cos² = 1 the point has norm rho |
| CoorTransform.ShiftColumn | cruw/mapping/coor_transform.py:60-61 | `xz_mat[:, col] += d`: same rows and lengths, column col moved by d, every other entry unchanged |
| CoorTransform.Translate | cruw/mapping/coor_transform.py:60-61 | columns 0 and 1 moved by dx and dz (`CoorTransform.TranslateEffect`, `CoorTransform.TranslateRoundTrip`) |
| CoorTransform.RowsAre | cruw/mapping/coor_transform.py:60-61 | an array whose entries are those of s reads back as s |
| CoorTransform.TranslateEffect | cruw/mapping/coor_transform.py:60-74 | a translation moves columns 0 and 1 by the given amounts and keeps the row count, the lengths and the other columns |
| CoorTransform.TranslateRoundTrip | cruw/mapping/coor_transform.py:52-75 | translating back by the same vector restores the matrix |
| CoorTransform.ShiftColumnInPlace | cruw/mapping/coor_transform.py:60 | `xz_mat[:, col] += d` in place |
| CoorTransform.Radar2CameraXz | cruw/mapping/coor_transform.py:52-62 | ValueError unless three components; column 0 += tx and column 1 += tz in place, ty ignored; the same array is returned |
| CoorTransform.Camera2RadarXz | cruw/mapping/coor_transform.py:65-75 | the same with -= tx and -= tz |
| CoorTransform.RoundTrip | cruw/mapping/coor_transform.py:52-75 | `camera2radar_xz(radar2camera_xz(m, t), t)` restores every entry |
| ConfigClasses.Restrict | cruw/config_classes.py:21-26 | a dictionary cut down to the given keys |
| ConfigClasses.KeyName | cruw/config_classes.py:20-225 | the Python spelling of each dictionary key |
| ConfigClasses.KeyNamesDistinct | cruw/config_classes.py:20-225 | distinct keys have distinct spellings, so a map over keys is a dictionary over their names |
| ConfigClasses.SerializeSensor | cruw/config_classes.py:20-26 | the dictionary has exactly the four keys |
| ConfigClasses.InitializeSensor | cruw/config_classes.py:28-35 | KeyError unless all four keys are present |
| ConfigClasses.SensorRoundTrip | cruw/config_classes.py:20-35 | `initialize(c.serialize())` reproduces all four fields |
| ConfigClasses.SensorReadBack | cruw/config_classes.py:20-35 | serialising an initialised config gives back the content's four entries |
| ConfigClasses.SerializeObject | cruw/config_classes.py:100-105 | exactly the three keys, with `n_class` stored under "n_classes" |
| ConfigClasses.InitializeObject | cruw/config_classes.py:107-113 | KeyError unless n_classes, classes and sizes are present |
| ConfigClasses.ObjectRoundTrip | cruw/config_classes.py:100-113 | n_class is written and read under "n_classes", so the config round-trips |
| ConfigClasses.ObjectReadBack | cruw/config_classes.py:100-113 | serialise after initialise gives back the content's three entries |
| ConfigClasses.SerializeHumanAnno | cruw/config_classes.py:133-142 | exactly the seven keys |
| ConfigClasses.InitializeHumanAnno | cruw/config_classes.py:144-154 | KeyError unless all seven keys are present |
| ConfigClasses.HumanAnnoRoundTrip | cruw/config_classes.py:133-154 | all seven fields round-trip |
| ConfigClasses.HumanAnnoReadBack | cruw/config_classes.py:133-154 | serialise after initialise gives back the content's seven entries |
| ConfigClasses.NewLoc3DCam | cruw/config_classes.py:160-178 | the constructor with its defaults: gt_root, gt_dir_name, gt_format None and date_included True (`ConfigClasses.AsWrittenMisbindsDateIncluded`) |
| ConfigClasses.SerializeLoc3DCam | cruw/config_classes.py:180-201 | the gt_* keys are emitted exactly when gt_root is not None |
| ConfigClasses.InitializeLoc3DCamAsWritten | cruw/config_classes.py:203-225 | KeyError unless the keys of its branch are present |
| ConfigClasses.AsWrittenMisbindsDateIncluded | cruw/config_classes.py:160-225 | without 'gt_root', the date_included value lands in gt_root and date_included is the default True |
| ConfigClasses.AsWrittenRoundTripFails | cruw/config_classes.py:180-225 | a config without gt root and with date_included False does not round-trip |
| ConfigClasses.InitializeLoc3DCam | cruw/config_classes.py:203-225 | KeyError unless the keys of its branch are present; date_included read from its own key, gt_root None when absent |
| ConfigClasses.Loc3DCamRoundTripWithGt | cruw/config_classes.py:180-216 | with gt_root set both readers round-trip |
| ConfigClasses.Loc3DCamRoundTrip | cruw/config_classes.py:180-225 | the corrected reader round-trips whenever the gt_* fields serialise |
| ConfigClasses.Loc3DCamReadBack | cruw/config_classes.py:180-225 | serialise after the corrected initialise gives back the content restricted to its branch's keys |
| ParseCamCalib.Subscript | cruw/utils/parse_cam_calib.py:5-8 | `data[key]`: KeyError on a dictionary without it, TypeError on a non-dictionary |
| ParseCamCalib.Dim | cruw/utils/parse_cam_calib.py:11 | reshape dimensions must be integers, else TypeError |
| ParseCamCalib.ResolveShape | cruw/utils/parse_cam_calib.py:11-18 | numpy's shape check: rows·cols = len(data) with one -1 inferred; ValueError otherwise |
| ParseCamCalib.RowsOf | cruw/utils/parse_cam_calib.py:11 | rows×cols nested lists |
| ParseCamCalib.RowsOfRowMajor | cruw/utils/parse_cam_calib.py:11 | M[i][j] = data[i·cols + j] |
| ParseCamCalib.FlattenRowsOf | cruw/utils/parse_cam_calib.py:11 | flattening the reshaped rows gives back data |
| ParseCamCalib.Reshape | cruw/utils/parse_cam_calib.py:11-18 | ValueError exactly when the shape does not fit; otherwise the resolved shape and the same elements in row-major order |
| ParseCamCalib.ReshapeRowMajor | cruw/utils/parse_cam_calib.py:10-18 | each matrix is data reshaped row-major: M[i][j] = data[i·cols + j] |
| ParseCamCalib.Squeeze | cruw/utils/parse_cam_calib.py:14 | a 1×1 becomes a scalar, a 1×n or n×1 a vector, and anything else is unchanged |
| ParseCamCalib.FlattenColumn | cruw/utils/parse_cam_calib.py:14 | a column matrix flattens to its first entries |
| ParseCamCalib.SqueezeKeepsElements | cruw/utils/parse_cam_calib.py:14 | squeezing keeps the elements in order |
| ParseCamCalib.ReadMatrix | cruw/utils/parse_cam_calib.py:10-11 | a matrix entry needs data, rows and cols, and is the reshape of data |
| ParseCamCalib.MatrixEntries | cruw/utils/parse_cam_calib.py:5-8 | the four named entries in order; KeyError on a missing one, TypeError on a non-dictionary |
| ParseCamCalib.BuildMatrices | cruw/utils/parse_cam_calib.py:10-20 | (K, D, R, P) from the four entries, D squeezed, the first failing error otherwise |
| ParseCamCalib.ParseCamMatrices | cruw/utils/parse_cam_calib.py:1-20 | TypeError on a non-dictionary, KeyError on a missing key, otherwise `BuildMatrices` of the four entries |
| ParseCamCalib.DistortionRowSqueezed | cruw/utils/parse_cam_calib.py:12-14 | a 1×5 distortion entry becomes a 5-vector of its data |
| InitJson.CameraJson | cruw/annotation/init_json.py:44-58 | `init_camera_json`; `InitJson.CameraTemplateEmpty` lists its six keys and values |
| InitJson.CameraTemplateEmpty | cruw/annotation/init_json.py:44-58 | the camera template has exactly its six keys: folder_name, width, height, frame_name None, n_objects 0, obj_info with anno_source None and empty lists |
| InitJson.RadarJson | cruw/annotation/init_json.py:61-76 | `init_radar_json`; `InitJson.RadarTemplateEmpty` lists its seven keys and values |
| InitJson.RadarTemplateEmpty | cruw/annotation/init_json.py:61-76 | the radar template has exactly its seven keys: range, azimuth, n_chirps, frame_name None, n_objects 0, obj_info with anno_source None and empty lists |
| InitJson.FrameMetaUpTo | cruw/annotation/init_json.py:31-39 | the per-frame dictionary fails only with NotImplementedError |
| InitJson.FrameMeta | cruw/annotation/init_json.py:31-39 | one frame's dictionary, failing only with NotImplementedError; `InitJson.FrameMetaContents` and `InitJson.FrameMetaFails` state its keys and its failure |
| InitJson.MetaFrames | cruw/annotation/init_json.py:29-41 | n entries, or NotImplementedError |
| InitJson.InitMetaJsonSpec | cruw/annotation/init_json.py:27-41 | `init_meta_json`: max(n_frames, 0) entries, or NotImplementedError |
| InitJson.FrameMetaLoop | cruw/annotation/init_json.py:31-39 | the key loop computes the frame's dictionary |
| InitJson.FrameMetaErrPersists | cruw/annotation/init_json.py:38-39 | a rejected key ends the frame with the error |
| InitJson.MetaFramesErrPersists | cruw/annotation/init_json.py:30-39 | a failing frame ends the whole list with the error |
| InitJson.InitMetaJson | cruw/annotation/init_json.py:27-41 | `init_meta_json` computes `InitMetaJsonSpec` |
| InitJson.FrameMetaFails | cruw/annotation/init_json.py:32-39 | a frame fails exactly when some key starts with neither 'cam' nor 'rad' |
| InitJson.MetaFramesFails | cruw/annotation/init_json.py:30-39 | the list fails exactly when n_frames > 0 and some key is neither camera nor radar |
| InitJson.MetaFramesEntries | cruw/annotation/init_json.py:40 | entry i is frame i's dictionary |
| InitJson.FrameMetaContents | cruw/annotation/init_json.py:31-39 | frame_id is kept, each 'cam' key gets the camera template and each 'rad' key the radar template with its folder name, and there are no other keys |
| InitJson.FrameMetaZero | cruw/annotation/init_json.py:31 | no sensor key replaces frame_id |
| InitJson.FrameIds | cruw/annotation/init_json.py:30-40 | entry i has frame_id = i |
| InitJson.DefaultFoldersKnown | cruw/annotation/init_json.py:5-41 | with the default folders the list never fails and has max(n_frames, 0) entries |
| InitJson.AnnoShape | cruw/annotation/init_json.py:12-24 | the annotation is always built: date_collect is the first ten characters of seq_name and metadata has n_frames entries |
| InitJson.InitAnnoJson | cruw/annotation/init_json.py:12-24 | built exactly when `init_meta_json` succeeds: a dictionary with exactly its nine keys, seq_name and n_frames as given, metadata the frame list |

## Left out

- File and directory I/O is not modelled: `open`/`readlines`, YAML and JSON loading, `os.path` checks. The readers take lines already split into fields, and `parse_cam_matrices` takes the loaded dictionary.
- String-to-number conversion and line splitting (`int(...)`, `float(...)`, `split()`) are taken as done: a line with the wrong field count or an unparsable number is not modelled.
- `SensorConfig.load_cam_calib` and `load_cam_calibs` are not modelled. They read YAML files and store results into `calib_cfg` step by step.
- `get_class_id` is not part of this model. `read_rodnet_res` takes it as a function parameter.
- Logging and printing (`log=True` branches, the class-mismatch `print`) are left out as I/O.
- Floating point is modelled only as far as inf and NaN: every finite quantity is an exact real, with no rounding and no overflow. The OLS values carry +inf and NaN (`Numerics.Float`); a NaN statistic of `_summarize` is `None`. The sign of a zero is not modelled beyond the one case where it decides +inf: a zero scale times a negative kappa.
- Metrics.GetOlsXy: stays on Python floats, where a zero scale or kappa raises ZeroDivisionError. Its arguments are the plain numbers `get_ols_xy` receives; numpy arguments there are not modelled.
- RodMatch.MatchIsGreedy: proves the greedy best match only for rows without NaN, as `RodMatch.OlsDtsGtsFinite` shows the OLS matrix is when every gt has positive range and kappa. With NaN in a row, `RodMatch.PickPassesNaN` states what the loop does instead: a free NaN gt or a later gt is picked.
- RodMatch.PickFromIsBest: the same restriction to rows without NaN.
- GenerateGrids.CroppedRangeGrid: requires sweepSlope != 0. With numpy a zero sweep slope gives inf or NaN range entries, which the model does not cover.
- RodAccumulate.RecallCurve: the `np.spacing(1)` epsilon is replaced by exact division. When ng = 0, recall is 0 and precision divides by tp + fp = i + 1 > 0.
- Float equality in `_summarize`'s threshold selection (`olsThr == olsThrs`) is exact equality of reals.
- The transcendental functions are abstract. Only the law predicates stated in `Numerics` are assumed, and only by the lemmas that take them.
- RodAccumulate.Accumulate: requires every non-None record to have T match rows of the right lengths (`RecordsShaped`). The source proceeds with whatever numpy does on ragged arrays; the model does not cover that case.
- RodMatch.EvaluateImg: requires a present OLS matrix, when non-empty, to be D×G (`OlsShaped`). It is the one `compute_ols_dts_gts` produced (`RodMatch.OlsDtsGtsShaped`). Numpy's errors (or silent broadcasting) on a wrongly shaped matrix are not modelled.
- RodSummarize.Summarize: requires an evaluation result of the accumulated shape with K equal to n_class (`EvalShaped`), as `accumulate` produces (`RodAccumulate.AccumulateShaped`).
- RodAccumulate.ClassCurveMonotone: assumes non-decreasing recall levels, as the evaluation's `recThrs` (0 to 1) are.
- RodAccumulate.ClassCurveSamples: the same assumption of non-decreasing recall levels.
- RodSummarize.StatInUnit: proves the [0, 1] range for AP from the accumulated result (`RodSummarize.AccumulatedAPInUnit`). For AR it assumes the recall entries are -1 or in [0, 1]; recall <= 1 of the accumulated result is not proved.
- `searchsorted` is modelled as "first index with rc[k] >= x" (`RodAccumulate.SearchLeft`). This is numpy's left search on a sorted rc, which the cumulative recall is.
- The detection ids the matcher writes are assumed positive in the mutual-match lemmas (`AllPositive`). The readers assign ids from 1, so this holds for their output. An id of 0 would be indistinguishable from "unmatched" in the source as well.
- ConfigClasses: each configuration's dictionary keys are a `Key` datatype whose names are the Python spellings (`ConfigClasses.KeyName`). Keys outside the four configurations are not modelled, so `initialize` sees only those keys.
- ParseCamCalib: `data` is read as a flat list (or a single value). Nested lists, which numpy would turn into a multi-dimensional array before reshaping, are not modelled.
- ParseCamCalib.Dim: accepts a bool as the dimension 0 or 1, as numpy does. Float or string dimensions raise TypeError; numpy's exact message and class for other kinds are not modelled.
- The polar and Cartesian converters other than `pol2cart_ramap` (`pol2cart`, `cart2pol`, `cart2pol_ramap`) are not modelled. Nothing in the core calls them.
- `cruw/cruw.py`, the evaluation scripts (`eval_rod2021.py`, `eval_rodnet.py`), `rf_image.py`, `complex.py`, the visualisation package and packaging files are not part of this model. The threshold lists and n_class they fix are parameters here.
- InitJson: `init_anno_json`'s defaults (`dataset='CRUW'`, `fps=30`, `None` sensors/view/setup) are not defaults in the model: the caller passes every value. `n_frames` is an integer; a non-integer would raise TypeError in `range`, which is not modelled.

## Findings

| source | as written | input that shows it | evidently intended | confidence | as-written member | corrected member |
|---|---|---|---|---|---|---|
| cruw/config_classes.py:217-225 | without 'gt_root', `initialize` passes `content['date_included']` as the sixth positional argument, which binds it to `gt_root`; `date_included` then takes its default True | a config with gt_root None and date_included False: serialise, then initialise | pass it by keyword (`date_included=content['date_included']`), so that the config round-trips | high, not executed | ConfigClasses.InitializeLoc3DCamAsWritten / ConfigClasses.AsWrittenRoundTripFails | ConfigClasses.InitializeLoc3DCam / ConfigClasses.Loc3DCamRoundTrip |
