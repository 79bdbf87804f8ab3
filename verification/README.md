# Vision target pipeline — a Dafny model of CVProcess

This project models the decision logic of `CVProcess.process_method`, the per-frame loop of a robot's
vision coprocessor. For each camera frame the loop does six things:

1. It picks at most one "good" contour out of the contours found in a colour-thresholded mask.
2. It reduces that contour to one corner per row of a direction matrix (`EXTREME_VECTOR`).
3. It solves the target pose from those corners.
4. It computes the camera position in the field frame and rejects it when it is too far away.
5. It re-expresses the camera translation in robot axes. From that it derives the bearing to the left, the
   azimuth (yaw + bearing) and the field heading.
6. It offers a `(found, distance, bearing, azimuth, [x, y, theta])` tuple to the target queue. When there is
   no target it offers `(False, None, None, None, None)` instead.

Debug lines pass only on frames whose counter `cnt` is a multiple of `DEBUG_PERIOD` = 30.

The vision library's measurements are inputs to the model. Each contour carries its points, its area,
its bounding-box width and height, and the vertex count of its polygon approximation. Three primitives
are parameters of the `Primitives` datatype:

- the pose solve (solvePnP followed by Rodrigues, with the 3D target model, camera matrix and distortion
  fixed);
- `hypot`;
- `atan2` converted to degrees.

The configuration values `MIN_TARGET_AREA`, `MAX_TARGET2RECT_RATIO`, `MAX_TARGET_DISTANCE` and the rows
of `EXTREME_VECTOR` (any number of them) are parameters. Floating-point values are modelled as reals.

Files, one module each:

- `optional.dfy` — `Option`, standing for Python's `None`.
- `contours.dfy` — the selection loop `SelectGoodContour` and its loop-free specification `GoodContour`.
  `GoodContour` returns the index of the only qualifying contour, or none.
- `corners.dfy` — argmax over the projections (first maximum wins) and the extreme points.
- `transform.dfy` — the robot-axis remap of line 108 and the field position `R^T * (-t)` of line 95.
- `pipeline.dfy` — the outcome gate `Gate`/`Judge`, the queue tuple `Encode`/`Decode`, the debug
  throttle, and the class `CVProcess`. The class holds the frame counter `cnt`, the messages offered
  to the target queue (`sent`) and the lines offered to the logger (`log`). `Step` is one pass of the
  `while True` body, and `Run` is the loop over a finite sequence of camera captures.

The robot-axis remap is the one of CVProcess.py:108. That line unpacks `tvec * (-1, -1, 1)` into
`y, z, x`, so robot `x = t_z`, `y = -t_x` and `z = -t_y`. `RemapIsRotation` shows that this map is a
proper rotation.

## Model

| member | source | states |
|---|---|---|
| Contours.AboveAreaFloor | CVProcess.py:52-54 | defines the area filter: a contour survives unless its area is below MIN_TARGET_AREA |
| Contours.BelowFillCeiling | CVProcess.py:55-57 | defines the fill filter: a contour survives unless area/w/h exceeds MAX_TARGET2RECT_RATIO |
| Contours.TargetShaped | CVProcess.py:58-61 | defines the shape filter: the approximated polygon has 7 to 9 vertices |
| Contours.Qualifies | CVProcess.py:52-61 | defines a qualifying contour: it passes all three filters, in the code's order |
| Contours.GoodContour | CVProcess.py:50-66 | the good contour is Some(k) exactly when k is the only contour passing every filter, and none otherwise |
| Contours.SelectGoodContour | CVProcess.py:50-66 | the loop with its early break returns exactly GoodContour; a picked contour has area >= MIN_TARGET_AREA, area/w/h <= MAX_TARGET2RECT_RATIO and 7..9 vertices; the "two good contours" warning is raised iff two contours qualify, and then nothing is picked |
| Contours.AmbiguousHasNoUnique | CVProcess.py:62-65 | two qualifying contours leave no unique one, so the reset to None at the second one is right |
| Contours.NoPairWithoutBreak | CVProcess.py:51-66 | a loop that ran to the end saw at most one qualifying contour, and its pick equals GoodContour |
| Contours.GoodContourIffSingleton | CVProcess.py:50-66 | a contour is selected iff the set of qualifying indices has exactly one element, and it is that element |
| Contours.BelowFillCeilingIff | CVProcess.py:55-57 | the ratio filter area/w/h <= ratio is the same as area <= ratio*w*h, because w, h >= 1 |
| Corners.FirstMax | CVProcess.py:75-76 | argmax of a row is a maximum, and every earlier entry is strictly smaller (ties go to the lowest index) |
| Corners.ArgMax | CVProcess.py:75-76 | the chosen index (FirstMax of `Projections`, one row of the matrix product) has maximal projection onto the direction, and no earlier point ties it |
| Corners.ArgExtremes | CVProcess.py:75-76 | one argmax per direction row, in row order, each the first maximum of its row |
| Corners.ExtremePoints | CVProcess.py:75-77 | one corner per direction row, in row order; each corner is a contour point whose projection is at least every point's, taken at the argmax index |
| Corners.ArgMaxDeterministic | CVProcess.py:75-76 | "maximal, and first among ties" determines the index uniquely, so corner selection is deterministic |
| Corners.ExtremePointIsFirstMaximum | CVProcess.py:75-77 | each corner is the point at an index that is a first maximum for its row |
| Corners.ArgMaxTranslationInvariant | CVProcess.py:75-76 | shifting every contour point by the same offset does not change the chosen index |
| Corners.ArgMaxScaleInvariant | CVProcess.py:75-76 | scaling a direction row by a positive factor does not change the chosen index |
| Corners.ExtremePointsRowwise | CVProcess.py:75-77 | rows are independent: stacking two direction matrices concatenates their corners |
| Transform.RobotFromCamera | CVProcess.py:108 | the remap of line 108 is the matrix with rows (0,0,1), (-1,0,0), (0,-1,0): x = t_z, y = -t_x, z = -t_y |
| Transform.CameraFromRobot | CVProcess.py:108 | the inverse remap is the transpose of that matrix |
| Transform.RemapIsRotation | CVProcess.py:108 | the remap matrix is orthonormal with determinant +1 (a rotation, not a reflection) |
| Transform.RemapRoundTrip | CVProcess.py:108 | remap and inverse remap undo each other in both orders |
| Transform.RemapIsometry | CVProcess.py:108 | the remap preserves dot products and cross products |
| Transform.FieldPosition | CVProcess.py:94-96 | defines field_xyz as R^T(-t), the camera position in the target frame; its properties are the two rows below |
| Transform.FieldPositionInverts | CVProcess.py:94-95 | for an orthonormal rotation R, applying R to the field position R^T(-t) gives back -t |
| Transform.FieldPositionKeepsRange | CVProcess.py:94-95 | for an orthonormal rotation R, the field position is as far from the origin as the translation |
| Pipeline.Encode | CVProcess.py:117-128 | found is true iff the reading is a target; a "no target" tuple carries no geometry at all; a target tuple carries every field and a 3-element field position |
| Pipeline.DecodeEncode | CVProcess.py:117-128 | a consumer reading the tuple back gets exactly the reading that was encoded |
| Pipeline.EncodeDecode | CVProcess.py:117-128 | every tuple a consumer accepts is the encoding of what it decodes to |
| Pipeline.Gate | CVProcess.py:68-124 | a target is reported only for a good contour and only within MAX_TARGET_DISTANCE, and its azimuth is yaw + bearing |
| Pipeline.Judge | CVProcess.py:95-121 | after a successful solve: a target only when distance <= MAX_TARGET_DISTANCE, with azimuth = yaw + bearing |
| Pipeline.GateCases | CVProcess.py:68-121 | every path of the gate: no good contour, failed solve and too-far each give "no target"; otherwise the target carries hypot of the field x/y, bearing atan2(-t_x, t_z), yaw + bearing, and field heading atan2(fy, fx) - 180 - bearing |
| Pipeline.FoundWithinRange | CVProcess.py:100-105 | when hypot is the Euclidean length, a reported field position satisfies x² + y² <= MAX_TARGET_DISTANCE² |
| Pipeline.FrameSpec | CVProcess.py:35-124 | defines one captured frame's outcome: the gate applied to GoodContour's pick, preceded by the "two good contours" warning exactly when two contours qualify |
| Pipeline.NoUniqueContourNoTarget | CVProcess.py:50-72 | zero, or two or more, qualifying contours give "no target" whatever their quality, and the ambiguous case logs the warning first |
| Pipeline.FoundImpliesGate | CVProcess.py:50-105 | a reported target comes from the single qualifying contour, whose corners the pose solve accepted, within the distance bound |
| Pipeline.DebugDue | CVProcess.py:132-133 | defines a due frame: cnt % DEBUG_PERIOD == 0, with DEBUG_PERIOD = 30 |
| Pipeline.Pass | CVProcess.py:132-134 | defines what reaches the log of one line: a warning always, a debug line only on a due frame |
| Pipeline.Throttle | CVProcess.py:132-134 | applies Pass to each of a frame's lines in order; the log never receives more lines than the frame produced |
| Pipeline.OneDueFramePerPeriod | CVProcess.py:132-134 | among any 30 consecutive counter values exactly one lets debug lines through |
| Pipeline.ThrottleKeeps | CVProcess.py:132-134 | the log receives only the frame's own lines and every warning; debug lines reach it only on due frames, where everything passes |
| Pipeline.ThrottleOne | CVProcess.py:132-134 | a single warning always passes; a single debug line passes iff cnt % 30 == 0 |
| Pipeline.ThrottleSplit | CVProcess.py:132-134 | throttling is applied line by line, so it distributes over concatenation |
| Pipeline.ReplayShape | CVProcess.py:29-33 | the loop reads captures in order, stops right after the first failed read and nowhere else, and sends one message per captured frame |
| Pipeline.Replay | CVProcess.py:29-124 | defines the loop over a capture sequence: each frame increments the counter, a failed read ends the loop, a captured frame sends FrameSpec's reading and logs its throttled lines; it runs at most one frame per capture and at least one for a non-empty sequence |
| Pipeline.ReplayStep | CVProcess.py:29-124 | proof aid for Run: unfolds Replay once (a failed read ends the loop; a captured frame sends its reading and logs its throttled lines with the incremented counter) |
| Pipeline.CVProcess.constructor | CVProcess.py:14-20 | a new process starts with cnt = 0, nothing sent and nothing logged |
| Pipeline.CVProcess.Debug | CVProcess.py:132-134 | the debug line is appended iff cnt is a multiple of DEBUG_PERIOD |
| Pipeline.CVProcess.Warn | CVProcess.py:63 | a warning is always appended; used for the "two good contours" warning of line 63 and the "distance too big" warning of line 103 |
| Pipeline.CVProcess.PutNoTarget | CVProcess.py:126-130 | offers exactly (False, None, None, None, None) |
| Pipeline.CVProcess.Step | CVProcess.py:29-124 | cnt goes up by exactly one per pass, even when the read fails; a failed read sends and logs nothing; otherwise exactly one message is sent, the frame's reading, using the yaw read once after capture, and the frame's lines are logged through the throttle |
| Pipeline.CVProcess.Locate | CVProcess.py:68-91 | from the good contour on, sends the gate's reading and logs its throttled lines |
| Pipeline.CVProcess.Report | CVProcess.py:93-121 | from a solved pose on, sends Judge's reading and logs its throttled lines |
| Pipeline.CVProcess.Run | CVProcess.py:29-33 | running the loop over a capture sequence makes exactly the reads, counter increments, messages and log lines of the specification Replay |

## Left out

- OpenCV calls are inputs, not modelled computations. This covers `VideoCapture` and its `set` calls (lines
  23-27), `cvtColor`, `inRange`, `findContours` (including the version branch at lines 42-47),
  `contourArea`, `boundingRect`, `arcLength` and `approxPolyDP`. The pose solve and `Rodrigues` are one
  parameter. `hypot` and `atan2` in degrees are parameters too, because they are floating-point
  transcendental functions.
- Floating-point rounding and NaN are not modelled. The model works over reals.
- Pipeline.Gate: the bound distance <= MAX_TARGET_DISTANCE holds only for distances that are numbers. In
  the code a NaN distance passes the test at line 102, because `NaN > MAX_TARGET_DISTANCE` is false, and is
  sent with found = True. The model has no NaN.
- Pipeline.Judge: the same NaN gap as for Gate applies to the distance test of line 102.
- Drawing calls (`drawContours`, `circle` at lines 60 and 78-80) only annotate the debug frame. They are
  not modelled.
- `putFrame` and the frame queue (lines 41, 69, 89, 122, 136-140) are not modelled.
- The target queue is bounded and non-blocking, so a message may be dropped. `sent` records what was
  offered. The "target_queue full" warning and the dropped `putFrame` after a full queue are not modelled.
- Multiprocessing is not modelled. The shared pose array is an `array<real>` read once per frame at index
  5. Writes by other processes between frames are not modelled; `Run` sees the same yaw on every frame.
- The `run` wrapper that logs an uncaught exception (lines 142-147) is not modelled. A failed capture ends
  `Run` the way the raised exception ends `process_method`.
- Pipeline.CVProcess.Run: runs the `while True` loop over a finite sequence of captures. It stops when
  the sequence is exhausted, a case the endless camera loop does not have.
- Contours.Contour: width and height have type `Extent` (at least 1), because `boundingRect` of a
  non-empty contour is at least one pixel wide. The ZeroDivisionError that line 56 would raise on a zero
  extent therefore cannot occur in the model.
- Contours.Contour: points have type `Outline` (non-empty), because contour extraction never yields an
  empty contour. numpy's argmax error on an empty contour therefore cannot occur in the model.
- Corners.ExtremePoints: with a one-row `EXTREME_VECTOR`, `squeeze` at line 77 gives an array of shape
  (2,). The loop at lines 79-80 then iterates over two scalars, `tuple(point)` raises TypeError, and that
  ends `process_method` (lines 142-147 only log it). The model keeps one corner per row, goes on to the
  pose solve, and may report a target in that configuration.
- Logger severity levels and message text formatting are not modelled. Log lines are the constructors
  of `DebugMsg` and `WarningMsg`.
