# pinbot core, modelled in Dafny

pinbot watches a pinball playfield through a camera, learns where each flipper
is effective, predicts where the ball will be shortly, and fires the flipper
through a serial link. This project models the four pieces of sequential
logic in that program and proves properties about them:

- **Flipper effective zones** (`flipper.dfy`, module `Flippers`). The
  `Flipper` class keeps a deque of training contours capped at 50. It also
  keeps a list of effective rectangles that `Train` only ever extends.
  `Check` asks whether a contour's bounding box meets one of those
  rectangles. `Rectangle.HasIntersect` is the program's test: a closed
  interval overlap on both axes (`min(x1) - max(x0) >= 0`).
- **Brute-force trajectory predictor** (`predictor_bruteforce.dfy`, module
  `PredictorBruteforce`). The `Bruteforce` class keeps a queue of at most two
  observation sets, newest first. Each set is filtered to the area bounds.
  `GetLines` pairs every newest observation with every older one, drops the
  pairs above the speed ceiling, and extrapolates each axis linearly to a
  window of future points. Arithmetic is over `real`; `int(...)` is
  truncation toward zero (`Vision.Trunc`).
- **Frame source** (`webcam_video_stream.dfy`, module `FrameSource`). The
  `WebcamVideoStream` class has the fields `grabbed`, `frame`, `timestamp`,
  `frameNumber`, `frameRead` and `stopped`. One pass of the capture loop is
  the atomic method `UpdateOnce`. `Read` and `Stop` are methods too. The
  pure functions `UpdateStep`, `ReadStep` and `StopStep` state each method's
  new state. The lemmas reason about runs of these operations.
- **Per-frame controller** (`track_ball.dfy`, module `TrackBall`). The
  `State` class holds the loop's fields. `Iterate` is one pass of the main
  loop and `MainLoop` runs it over a finite sequence of inputs. The pure
  `Step` and `Run` functions specify both methods. The loop counts frames
  and skips frames 1 to 120 (warm-up). It selects a stage (A, then B, then
  game). In training A it decides between taking a snapshot, pressing A and
  doing nothing. Time is integer microseconds.

`common.dfy` holds `Option`/`Result` (module `Wrappers`) and the vision
library's value types (module `Vision`). The OpenCV calls the core uses are
function-typed parameters: `boundingRect`, `groupRectangles`, `contourArea`
and `moments`.

Notes on what the program does, which the model keeps:

- The rectangle test is symmetric, and a rectangle that lies inside another
  intersects it (`Flippers.ContainedIntersects`).
- `get_lines` with fewer than two sets returns an empty result, not an
  error.
- The time difference between the two sets is `timedelta.microseconds`, so
  whole seconds are dropped (`PredictorBruteforce.WholeSecondsAreDropped`).
  Two non-empty sets captured a whole number of seconds apart make the
  program divide by zero (`PredictorBruteforce.WholeSecondApartFails`).
- In each line, `past` is the NEWEST set's centre. `present` and
  `present_area` come from the OLDER set.
- The training calls in the controller are only `print` statements. No
  trained flag is ever set, so the loop stays in training A for good
  (`TrackBall.StaysInTrainingA`). The loop has no latency gate and no
  playing logic.

## Model

| member | source | states |
|---|---|---|
| Vision.Trunc | predictor_bruteforce.py:88-91 | `int()` on a float truncates toward zero: the result is within 1 of `x`, on the zero side |
| Flippers.NewRectangle | flipper.py:73-78 | a rectangle keeps its tuple and stores `x1 = x0 + w`, `y1 = y0 + h` |
| Flippers.HasIntersectSymmetric | flipper.py:80-83 | `has_intersect` is symmetric |
| Flippers.HasIntersectReflexive | flipper.py:80-83 | a rectangle with non-negative width and height intersects itself |
| Flippers.HasIntersectIsClosedOverlap | flipper.py:80-83 | for non-negative sizes the test is closed-interval overlap on both axes, in both directions of the iff |
| Flippers.TouchingEdgesIntersect | flipper.py:80-83 | rectangles sharing only an edge (dx == 0) intersect |
| Flippers.GapMeansNoIntersect | flipper.py:80-83 | a strictly positive gap on either axis means no intersection |
| Flippers.ContainedIntersects | flipper.py:80-83 | a rectangle lying inside another intersects it, in both argument orders |
| Flippers.NegativeExtentNeverIntersects | flipper.py:80-83 | a rectangle with negative width or height intersects nothing |
| Flippers.BoundedAppendSpec | flipper.py:31-35 | appending to the capped deque grows it by one until 50, then drops the oldest and keeps the order |
| Flippers.AppendAllKeepsNewest | flipper.py:31-35 | after any run of appends the deque holds exactly the newest 50 contours, in order |
| Flippers.BoundingRects | flipper.py:67 | one bounding rectangle per stored contour, in order |
| Flippers.Rectangles | flipper.py:40 | one valid rectangle per area tuple, in order |
| Flippers.AsWrittenAnalyzesTooFewContours | flipper.py:59-70 | as written, seven contours that the grouping keeps yield an area, although fewer than ten were meant to yield none |
| Flippers.AnalyzeNeedsEnoughContours | flipper.py:59-70 | the intended analysis yields areas only from at least ten contours, and then equals the grouping result |
| Flippers.CoversMonotone | flipper.py:37-57 | appending areas never removes coverage: a target some stored area intersects is still intersected after more areas are added |
| Flippers.Flipper.constructor | flipper.py:28-32 | a new flipper has no areas, an empty deque, and is not good |
| Flippers.Flipper.AddContour | flipper.py:34-35 | the deque becomes the capped append of the contour; the areas do not change |
| Flippers.Flipper.Train | flipper.py:37-43 | returns true iff the analysis yields an area; the areas become old areas plus the new rectangles; on false they are unchanged; true implies `is_good`; every target `check` accepted before training is still accepted after it |
| Flippers.Flipper.Check | flipper.py:48-57 | true iff the flipper is good and some stored area intersects the contour's bounding rectangle |
| PredictorBruteforce.SubSecondMicros | predictor_bruteforce.py:39 | the time difference used is the sub-second component, in [0, 10^6) |
| PredictorBruteforce.WholeSecondsAreDropped | predictor_bruteforce.py:39 | adding whole seconds to the time difference does not change it |
| PredictorBruteforce.CenterOfMass | predictor_bruteforce.py:80-82 | the centre fails (division by zero) exactly when `m00` is zero |
| PredictorBruteforce.InRangeMembership | predictor_bruteforce.py:20-27 | a contour is kept iff it is among the input and its area lies in `[min_area, max_area]` |
| PredictorBruteforce.ObserveKeepsInRange | predictor_bruteforce.py:18-27 | the observations are the in-range contours in input order, each with its own area, inside the bounds |
| PredictorBruteforce.ObserveFailsIff | predictor_bruteforce.py:18-27 | adding fails iff some in-range contour has zero `m00` |
| PredictorBruteforce.ObserveFailureSticks | predictor_bruteforce.py:20-25 | once the filtering loop has failed it stays failed |
| PredictorBruteforce.PushSetSpec | predictor_bruteforce.py:28-31 | after a push at most two sets remain, the new one first and the previous newest second |
| PredictorBruteforce.PushAllKeepsNewestTwo | predictor_bruteforce.py:28-31 | after any run of pushes only the two newest sets remain, newest first |
| PredictorBruteforce.TooFastIsSpeedAboveCeiling | predictor_bruteforce.py:84-86 | for any square root of the squared distance, the squared-distance test equals `distance / millis > max_speed` |
| PredictorBruteforce.FastJumpRejected | predictor_bruteforce.py:43-46 | a 1000 px move in 10 ms is rejected below a 100 px/ms ceiling |
| PredictorBruteforce.GetFutureAtRest | predictor_bruteforce.py:88-91 | with `present == past` the prediction is `present` |
| PredictorBruteforce.GetFutureExample | predictor_bruteforce.py:88-91 | moving from 0 to 10 in 100 ms, the point 60 ms ahead is 16 |
| PredictorBruteforce.GetFutureMonotoneInHorizon | predictor_bruteforce.py:47-70 | with time running forward, a longer horizon never predicts a nearer point along the direction of motion, for motion toward larger and toward smaller coordinates |
| PredictorBruteforce.PairLineSpec | predictor_bruteforce.py:43-77 | a pair gives a line iff it is under the ceiling; `past` is the newest centre, `present` and `present_area` the older set's |
| PredictorBruteforce.ZeroTimingErrorCollapses | predictor_bruteforce.py:47-70 | with zero timing error `future_min == future_max` |
| PredictorBruteforce.GridPairsOrdered | predictor_bruteforce.py:41-42 | accepted pairs come in (newest index, older index) lexicographic order |
| PredictorBruteforce.GridPairsComplete | predictor_bruteforce.py:41-46 | a pair is accepted iff its line exists, that is iff it is under the ceiling |
| PredictorBruteforce.GridLinesMatchPairs | predictor_bruteforce.py:41-77 | the k-th line is the line of the k-th accepted pair |
| PredictorBruteforce.GridLinesBound | predictor_bruteforce.py:41-42 | there are at most as many lines as pairs |
| PredictorBruteforce.LinesNeedTwoSets | predictor_bruteforce.py:36-37 | with fewer than two sets the result is empty |
| PredictorBruteforce.WholeSecondApartFails | predictor_bruteforce.py:39-43 | two non-empty sets a whole number of seconds apart, in either order, raise a division by zero |
| PredictorBruteforce.LinesSpec | predictor_bruteforce.py:35-78 | a successful result has at most `|sets[0]| * |sets[1]|` lines, each the line of an accepted pair, in loop order, covering every pair under the ceiling |
| PredictorBruteforce.Bruteforce.constructor | predictor_bruteforce.py:11-16 | stores the bounds and the ceiling; the queue is empty |
| PredictorBruteforce.Bruteforce.AddContours | predictor_bruteforce.py:18-31 | on success the filtered set is pushed in front, keeping two; on a zero `m00` the queue is unchanged; every stored area stays in bounds |
| PredictorBruteforce.Bruteforce.GetLines | predictor_bruteforce.py:35-78 | the nested loops compute exactly `Lines` of the queue |
| PredictorBruteforce.RowOfLines | predictor_bruteforce.py:42-77 | the inner loop gives the row of lines for one newest observation, or the division by zero when the time difference is zero |
| FrameSource.Initial | lib/WebcamVideoStream.py:9-30 | after construction the frame number is 1, nothing is read or stopped, and `wait_for_read` holds iff the source is a file |
| FrameSource.StoppedIsTerminal | lib/WebcamVideoStream.py:42-43 | a pass on a stopped stream changes nothing and exits |
| FrameSource.FileModeWaitsForRead | lib/WebcamVideoStream.py:45-48 | on a file whose frame is unread, a pass changes nothing and waits |
| FrameSource.CameraModeAlwaysGrabs | lib/WebcamVideoStream.py:45-53 | on a camera, a pass on a running stream always grabs, read or not |
| FrameSource.GrabSpec | lib/WebcamVideoStream.py:50-55 | a grab increments the frame number by 1, marks it unread, and stops iff the device read failed |
| FrameSource.ReadSpec | lib/WebcamVideoStream.py:57-66 | `read` returns the current stopped flag, frame, number and timestamp, and only marks the frame read; every other field is unchanged |
| FrameSource.FrameNumberCountsGrabs | lib/WebcamVideoStream.py:50-53 | over any run the frame number grows by exactly the number of grabs |
| FrameSource.TwoReadsAgreeIffNoGrab | lib/WebcamVideoStream.py:50-66 | two reads report the same frame number iff no pass between them grabbed |
| FrameSource.StoppedStaysStopped | lib/WebcamVideoStream.py:42-43 | once stopped, a stream stays stopped and keeps its frame and number over any run |
| FrameSource.FileModeGrabsBoundedByReads | lib/WebcamVideoStream.py:45-59 | on a file the grabs never outnumber the reads (plus one if the current frame was already read) |
| FrameSource.WebcamVideoStream.constructor | lib/WebcamVideoStream.py:9-30 | the fields are those of `Initial` |
| FrameSource.WebcamVideoStream.UpdateOnce | lib/WebcamVideoStream.py:37-55 | one pass of `update` changes the fields as `UpdateStep` does |
| FrameSource.WebcamVideoStream.Read | lib/WebcamVideoStream.py:57-66 | `read` changes the fields and returns as `ReadStep` does |
| FrameSource.WebcamVideoStream.Stop | lib/WebcamVideoStream.py:68-70 | `stop` sets `stopped` and nothing else |
| TrackBall.StepCountsFrame | track-ball.py:78-80 | every pass increments the frame number by exactly 1 |
| TrackBall.WarmUpMakesNoDecision | track-ball.py:92-94 | frames below 121 make no decision and change only the frame number |
| TrackBall.StageSelection | track-ball.py:100-120 | a processed frame is in training A if A is untrained, else training B if B is untrained, else game; only training A acts |
| TrackBall.SnapshotDecision | track-ball.py:104-108 | within 100 ms of the last press with no contour sent, the pass sets the sent flag and does not press |
| TrackBall.PressDecision | track-ball.py:104-113 | A is pressed iff the snapshot rule does not apply and the time since the last press exceeds the cooldown; the press records its time and clears the sent flag |
| TrackBall.IdleDecision | track-ball.py:104-114 | between 100 ms and the cooldown, or within 100 ms with a contour already sent and not past the cooldown, nothing changes but the frame number |
| TrackBall.RunCountsFramesAndNeverTrains | track-ball.py:78-120 | over any run the frame number grows by the passes consumed and no trained flag changes |
| TrackBall.StaysInTrainingA | track-ball.py:49-50 | starting from the initial state the loop never leaves training A |
| TrackBall.StepPressSpacing | track-ball.py:104-113 | one pass presses at most once, more than the cooldown after the last press, and records it |
| TrackBall.PressesRespectCooldown | track-ball.py:104-113 | with a clock that never runs backward, successive presses of A are more than the cooldown apart |
| TrackBall.State.constructor | track-ball.py:37-55 | the two press times are the two clock readings taken at start, no flag is set, frame 0 |
| TrackBall.State.Iterate | track-ball.py:78-120 | one pass changes the fields and decides as `Step` does |
| TrackBall.MainLoop | track-ball.py:78-155 | the loop's final fields, press times and frames consumed are those of `Run`, stopping at end of video or on `q` |

## Left out

- OpenCV is foreign. Bounding rectangles, rectangle grouping, contour area
  and moments are function-typed parameters. Background subtraction, blur,
  erode/dilate, `findContours`, drawing, `imshow` and `VideoWriter` are not
  modelled.
- `flipper/__init__.py` is an unfinished stub whose methods return nothing.
  It is not part of this model.
- `communication/arduino.py` writes bytes to a serial port. A press of A is
  the `PressA` action of the controller; the byte protocol is not modelled.
- The capture thread of the frame source is not modelled: `start`, the
  thread, the 1 ms sleep, the race between capture and `read`, `getParam`,
  and opening the file or camera. Whether the source is a file is the
  constructor's `isFile` parameter.
- The controller's display-only fields (`time_start`, `time_captured`,
  `time_processing_ended`), `getSecondsString`, the frame text, the 10 ms
  sleep after a press, argparse, and camera release are not modelled.
- The command-line cooldown arrives as a string, which `timedelta` would
  reject. The model takes the cooldown as an integer number of
  milliseconds.
- `time_press_b` is carried but never used, as in the program.
- The program's loop has no bound on its number of passes; `MainLoop` and
  `Run` consume a finite sequence of inputs.
- IEEE floating point is not modelled. Areas, speeds and extrapolations are
  exact `real`s. The speed test compares squared distances, proved equal to
  the square-root form by `TooFastIsSpeedAboveCeiling`.
- `get_lines` returns an empty iterator for fewer than two sets and a list
  otherwise; both are sequences here.
- Printing (the predictor's set-up line, the two "Waiting for frame to be
  read" lines of the capture loop, the loop's stage text) is not
  modelled.
- Flippers.Flipper.Train: uses the intended analysis, which yields nothing
  from fewer than ten contours. The code as written always groups (see
  Findings).

## Findings

| source | as written | input that shows it | evidently intended | confidence | as-written member | corrected member |
|---|---|---|---|---|---|---|
| flipper.py:64-65 | `if len(self.contours) < 10: []` evaluates an empty list and discards it, so the grouping runs however few contours are stored | seven identical contours, with a grouping that keeps a cluster of more than six rectangles, give one area | `return []` when fewer than ten contours are stored | high; not executed | Flippers.AsWrittenAnalyzesTooFewContours | Flippers.AnalyzeNeedsEnoughContours |
