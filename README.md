# xpano: panorama grouping, pairwise match filtering and progress accounting

xpano stitches a set of photographs into panoramas. This project models
three parts of it in Dafny and proves properties of them:

- **Panorama grouping (`FindPanos`).** This takes the pairwise image matches
  in the order they were produced. It keeps the matches that have strictly
  more correspondences than a fixed threshold, and chains them greedily. The
  first kept match opens a panorama `[id1, id2]`. Each later match extends
  the open panorama when its `id1` is that panorama's last id; otherwise it
  closes that panorama and opens a new one. The model proves four things
  about the result. Every panorama has at least two ids. Walking the
  panoramas reproduces the kept matches pair by pair. No two neighbouring
  panoramas could have been joined. And these three properties determine
  the result uniquely.
- **Pairwise match filtering (`MatchImages`).** The model keeps the control
  skeleton: an early exit when either image has no keypoints, the ratio
  test over the two nearest neighbours, the minimum of 4 survivors, the exit
  when no homography is found, and the inlier filter. The nearest-neighbour
  search, the ratio test, the homography estimate and the reprojection test
  are numerical. They enter as a value and as oracle functions passed in.
- **Status names (`ToString`).** This maps the four named stitcher status
  codes to their names, and every other code to `"ERR_UNKNOWN"`.
- **Progress accounting (`ProgressMonitor`).** The monitor holds the stage
  label, the done count and the task total. It is a class whose methods are
  proved to follow a step function over reports. Lemmas follow whole call
  sequences: one stage run to completion, and several stages in a row on
  one pipeline. The pipeline's tests check after each of these that
  `tasks_done == num_tasks`.

Files: `sequences.dfy` (module `Sequences`: order-preserving selection and
subsequences), `algorithm.dfy` (module `Algorithm`, from
`xpano/algorithm/algorithm.cc`), `stitcher_pipeline.dfy` (module `Pipeline`,
from `xpano/pipeline/stitcher_pipeline.h`).

The threshold `kMatchThreshold` is defined in `xpano/constants.h`, which is
not part of this model. It is a parameter `threshold` of `FindPanos`.

`FindPanos` does not deduplicate ids: the matches `(1, 2), (2, 1)` give
the single panorama `[1, 2, 1]` (`Algorithm.GroupMayRepeatIds`).

## Model

| member | source | states |
|---|---|---|
| `Algorithm.MatchImages` | xpano/algorithm/algorithm.cc:17-68 | The result is empty when either image has no keypoints, when fewer than 4 neighbour pairs pass the ratio test, or when no homography is found. Otherwise it is exactly the survivors that pass the inlier test under the estimated homography. It is always an order-preserving subsequence of the ratio-test survivors. |
| `Algorithm.RatioSurvivorsAreFirstNeighbours` | xpano/algorithm/algorithm.cc:28-34 | The ratio-test survivors are the first neighbours of the pairs that pass the test, in matcher order. A correspondence survives exactly when it is the first neighbour of a passing pair. |
| `Algorithm.InliersOfSurvivors` | xpano/algorithm/algorithm.cc:57-67 | The inliers are an order-preserving subsequence of the survivors. A survivor is kept exactly when it passes the inlier test. |
| `Algorithm.FindPanos` | xpano/algorithm/algorithm.cc:70-102 | The result is the greedy chaining `Group` of the qualifying matches' id pairs. It is empty exactly when no match has more than `threshold` correspondences, including for empty input. It is a maximal chaining of the qualifying pairs (`IsChaining`). When non-empty, it has one panorama more than there are breaks in the chain. |
| `Algorithm.SelectGoodMatches` | xpano/algorithm/algorithm.cc:73-78 | The first loop of `FindPanos` collects exactly the id pairs that the specification function `GoodMatches` selects, in input order. |
| `Algorithm.ChainPanos` | xpano/algorithm/algorithm.cc:84-101 | The second loop of `FindPanos`, run over a non-empty pair list, builds exactly the greedy chaining `Group`, one pair at a time. |
| `Algorithm.GoodMatchesSelects` | xpano/algorithm/algorithm.cc:73-82 | A pair is kept exactly when some match with strictly more than `threshold` correspondences has those ids. Nothing is kept exactly when no match qualifies. The kept pairs are an order-preserving subsequence of the input's id pairs. |
| `Algorithm.GoodMatchesAppend` | xpano/algorithm/algorithm.cc:74-78 | Selection keeps input order: the pairs kept from a concatenation are those kept from the first part followed by those kept from the second. |
| `Algorithm.Group` | xpano/algorithm/algorithm.cc:84-101 | The chaining is empty exactly when there are no pairs. Every panorama has at least two ids. The last panorama ends with the second id of the last pair. |
| `Algorithm.GroupOpens` | xpano/algorithm/algorithm.cc:93-98 | A pair whose first id is not the open panorama's last id closes that panorama and opens `[id1, id2]`. |
| `Algorithm.GroupExtends` | xpano/algorithm/algorithm.cc:91-92 | A pair whose first id is the open panorama's last id appends its second id to that panorama. |
| `Algorithm.GroupLinks` | xpano/algorithm/algorithm.cc:89-100 | Walking the consecutive id pairs of the panoramas in order gives back exactly the qualifying pair list. |
| `Algorithm.GroupSeparated` | xpano/algorithm/algorithm.cc:91-98 | Each panorama's last id differs from the next panorama's first id: a new panorama starts only where the chain breaks. |
| `Algorithm.GroupIsChaining` | xpano/algorithm/algorithm.cc:84-101 | The grouping is a maximal chaining: every panorama has at least two ids, its pairs reproduce the input, and neighbouring panoramas do not join. |
| `Algorithm.ChainingIsUnique` | xpano/algorithm/algorithm.cc:84-101 | Any list of panoramas that is a maximal chaining of the pairs equals the greedy grouping. So the three chaining properties specify `FindPanos` completely. |
| `Algorithm.GroupTotalLinks` | xpano/algorithm/algorithm.cc:89-100 | The sum over the panoramas of (number of ids - 1) equals the number of qualifying matches. |
| `Algorithm.GroupCount` | xpano/algorithm/algorithm.cc:91-98 | For a non-empty pair list, the number of panoramas is 1 plus the number of places where a pair's first id differs from the previous pair's second id. |
| `Algorithm.GroupMayRepeatIds` | xpano/algorithm/algorithm.cc:91-92 | Ids are not deduplicated: `(1, 2), (2, 1)` chain into the one panorama `[1, 2, 1]`. |
| `Algorithm.ToString` | xpano/algorithm/algorithm.cc:112-121 | Each of `OK`, `ERR_NEED_MORE_IMGS`, `ERR_HOMOGRAPHY_EST_FAIL` and `ERR_CAMERA_PARAMS_ADJUST_FAIL` maps to its own name, and only that code does. Every other code, and only those, maps to `"ERR_UNKNOWN"`. |
| `Pipeline.ProgressMonitor.constructor` | xpano/pipeline/stitcher_pipeline.h:97-99 | A fresh monitor reports type `None`, 0 tasks done and 0 tasks in total. |
| `Pipeline.ProgressMonitor.Progress` | xpano/pipeline/stitcher_pipeline.h:82-93 | The report carries the current type, done count and total. It only reads the monitor. |
| `Pipeline.ProgressMonitor.Reset` | xpano/pipeline/stitcher_pipeline.h:90 | Sets the type and the total to the arguments and restarts the done count at 0. |
| `Pipeline.ProgressMonitor.SetNumTasks` | xpano/pipeline/stitcher_pipeline.h:91 | Changes the total only; type and done count are unchanged. |
| `Pipeline.ProgressMonitor.SetTaskType` | xpano/pipeline/stitcher_pipeline.h:92 | Changes the type only; done count and total are unchanged. |
| `Pipeline.ProgressMonitor.NotifyTaskDone` | xpano/pipeline/stitcher_pipeline.h:94 | Raises the done count by exactly one; type and total are unchanged. |
| `Pipeline.NotificationsCount` | xpano/pipeline/stitcher_pipeline.h:94 | `k` notifications raise the done count by `k` and change nothing else. |
| `Pipeline.StageInProgress` | xpano/pipeline/stitcher_pipeline.h:90-94 | After `Reset(t, n)` and `k <= n` notifications, the report is `(t, k, n)` whatever came before the reset, so the done count does not exceed the total. |
| `Pipeline.StageCompletes` | tests/stitcher_pipeline_test.cc:43-45 | After `Reset(t, n)` and exactly `n` notifications, the report is `(t, n, n)`: `tasks_done == num_tasks`. |
| `Pipeline.ConsecutiveStagesComplete` | tests/stitcher_pipeline_test.cc:43-80 | When several stages each run to completion on one pipeline, one after another, the report shows the last stage complete. |
| `Pipeline.RunStage` | tests/stitcher_pipeline_test.cc:43-80 | A stage that resets the monitor for `n` tasks and reports each one leaves the monitor in the state the step function predicts, with `tasks_done == num_tasks`. |

## Left out

- The `StitcherPipeline` entry points `RunLoading`, `RunStitching`, `RunExport`, `RunInpainting`, `Progress` and `Cancel`, and the worker pool. They consist of thread-pool submission, futures and an atomic cancel flag, and their bodies are not part of this model.
- `Stitch`: a thin wrapper over the OpenCV stitcher with no logic of its own.
- The numerics of `MatchImages`: the FLANN k-nearest-neighbour search, the floating-point distance ratio against 0.8, the RANSAC homography estimate and the reprojection distance against 3 pixels. The search result is a parameter and the three tests are oracle functions. The loop that copies keypoint positions into point matrices only feeds these oracles, so it is not modelled.
- `Algorithm.MatchImages`: assumes the matcher returns two neighbours for every descriptor. The source reads the second neighbour without checking that it exists.
- `Algorithm.MatchImages`: a correspondence (`DMatch`) keeps only the two keypoint indices and drops `cv::DMatch`'s `distance` and `imgIdx`. The distance depends only on those indices and on the descriptors, which the ratio-test oracle closes over, and `imgIdx` is unused with a single train image.
- `Algorithm.MatchImages`: treats the homography estimate as a deterministic function of the survivors.
- `Pipeline.ProgressMonitor.NotifyTaskDone`: does not model the 32-bit wrap-around of the atomic `int` counter. Counts are unbounded integers.
- Atomicity and cross-thread visibility of the `ProgressMonitor` fields. The monitor is modelled as single-threaded state.
- The option and result structs (`StitchingOptions`, `ExportOptions`, `StitcherData`, `InpaintingResult`, `StitchingResult`, `ExportResult`). They carry images, paths and metadata as opaque payloads.
- The GUI files `xpano/gui/pano_gui.h` and `xpano/gui/panels/sidebar.h`, which are presentation code.
- The test assertions that depend on image data (panorama sizes, match counts on the sample images, metadata, bit depth). They depend on OpenCV's output, not on the logic modelled here.
