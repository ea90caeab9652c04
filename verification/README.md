# Chernoff faces: face geometry, frame schedule and face vector

A Dafny model of the core of `wiseman/chernoff-faces`, a small Java program that draws
Chernoff faces (cartoon faces whose features are driven by ten numbers) and animates the
transition between two of them.

The model covers three pieces of the program:

- **The face painter** (`FacePainter`):
  - The painter lays the face out in a logical 100 x 100 space. It maps the ten parameters
    `p[1..10]` to a head oval, two eye ovals, two filled pupils, two eyebrow lines, a
    three-line nose and two parabolic lips.
  - It then scales and translates every primitive into the target rectangle, using Java's
    truncating `(int)` cast.
  - The drawing surface is a recorder: `Draw` returns the sequence of `Oval`, `FillOval`
    and `Line` calls the painter makes, in order.
  - The lip's parabola is solved by Cramer's rule. It is then sampled one device pixel
    apart, both in closed form (`LipCurve.LipPolyline`) and as the loop the source runs
    (`LipCurve.DrawLip`), and the two are proved equal.
- **The animation timer** (`AnimationTimer`):
  - The frame loop `for (t = 0; t < 1; t += dt)`, with `frame_delay = 1000 / FPS` and
    `dt = frame_delay / duration`. The state's `interpolate` is a function parameter, and
    each `animator.animate` call becomes one `Frame` of the recorded outcome.
  - The `complete` flag across the constructor, `doSyncAnimation`, `doAsyncAnimation`
    and `run`.
  - Every case of the loop is covered. FPS 0 throws. A negative frame delay makes
    `Thread.sleep` throw after the first frame. A step `dt <= 0` never ends. Every other
    case ends.
- **The face vector** (`FaceVector`): the eleven-slot array of which slots 1..10 are
  used, the ten-argument constructor and `distance`.

Three quirks of the source are reproduced as written:

- Both `xLine` overloads add the x origin to the first endpoint's y coordinate. On the
  device, joined segments therefore stay joined only when the target's x and y
  coordinates are equal (`FacePainter.DrawNoseClosedIff`, `FacePainter.DrawLipsJoinedIff`).
- `xOval` takes the vertical radius third, so `e[0]` stretches the head vertically.
- The nose base uses the literal 55, and the `nose_height` and `pupil_radius` tunables
  are never read.

Modules:

- `Numerics`: Java's `(int)` cast (`Trunc`) and Java's truncating integer `/` (`JavaDiv`).
- `FaceVectors`: the face vector.
- `Scaling`: the transform and `xOval` / `xFillOval` / `xLine`.
- `LipCurve`: the parabola and the lip loop.
- `FacePainter`: the features and `draw`.
- `Animation`: the timer.

Three facts about the source that are easy to misread:

- **Pupil size.** `pupil_size = (int)(max(1, p3*0.2)*2)` is passed to `xFillOval` as
  both radii, so a pupil is `2*pupil_size` logical units across. For p3 in [0, 1] that is
  4 units, which is 8 device pixels in a 200 x 200 target.
- **`doSyncAnimation`** never writes `complete`. Only `doAsyncAnimation` writes it (to
  false, before starting the thread) and `run`, the thread's body, writes it (to true).
- **Timing arguments** are not checked up front. FPS 0 raises `ArithmeticException` from
  `1000 / FPS`, a negative frame delay makes `Thread.sleep` throw after the first frame,
  and every other combination runs the loop as written.

## Model

| member | source | states |
|---|---|---|
| Numerics.Trunc | java/org/heavymeta/chernoff/FacePainter.java:200-214 | Java's `(int)` cast of a double: the integer within 1 of the argument on its zero side (round toward zero) |
| Numerics.TruncOfInt | java/org/heavymeta/chernoff/FacePainter.java:200-202 | an integral value survives the cast unchanged |
| Numerics.TruncMonotone | java/org/heavymeta/chernoff/FacePainter.java:208-214 | the cast never reverses the order of two values |
| Numerics.JavaDiv | java/org/heavymeta/chernoff/Animation.java:90 | Java's int division: the remainder is smaller than the divisor and has the dividend's sign |
| FaceVectors.Make | java/org/heavymeta/chernoff/FaceVector.java:28-34 | the vector has 11 slots, parameter k is stored at index k, and slot 0 keeps the default 0.0 |
| FaceVectors.MakeRoundTrip | java/org/heavymeta/chernoff/FaceVector.java:28-34 | reading parameters 1..10 back out and constructing again gives the same vector |
| FaceVectors.SumSquaresNonNegative | java/org/heavymeta/chernoff/FaceVector.java:52-55 | the running sum of squared differences is never negative |
| FaceVectors.SumSquaresSymmetric | java/org/heavymeta/chernoff/FaceVector.java:52-55 | the sum is the same with the two vectors swapped |
| FaceVectors.SumSquaresOfAgreeing | java/org/heavymeta/chernoff/FaceVector.java:52-55 | vectors agreeing on slots 1..n-1 give a zero sum, whatever slot 0 holds |
| FaceVectors.SumSquaresIgnoresSlotZero | java/org/heavymeta/chernoff/FaceVector.java:52 | overwriting slot 0 of either vector leaves the sum unchanged |
| FaceVectors.Distance | java/org/heavymeta/chernoff/FaceVector.java:47-57 | the loop returns the square root of the squared differences over slots 1..10; it is non-negative when the root is, and 0 for agreeing parameters when sqrt(0) is 0 |
| FaceVectors.DistanceSymmetric | java/org/heavymeta/chernoff/FaceVector.java:47-57 | `u.distance(v)` and `v.distance(u)` take the root of the same value |
| FaceVectors.DistanceOfAgreeing | java/org/heavymeta/chernoff/FaceVector.java:47-57 | the squared distance is non-negative, and zero when parameters 1..10 agree (in particular for `v.distance(v)`) |
| FaceVectors.DistanceIgnoresSlotZero | java/org/heavymeta/chernoff/FaceVector.java:52 | slot 0 of either vector never affects the distance |
| Scaling.CalcXform | java/org/heavymeta/chernoff/FacePainter.java:192-197 | one logical unit is a hundredth of the target width (height), and the origin is the target's corner |
| Scaling.ScaleX | java/org/heavymeta/chernoff/FacePainter.java:200-210 | `(int)(x * x_factor)`, cut toward zero: the same sign as the exact product, never larger in size, and less than one pixel short of it |
| Scaling.ScaleY | java/org/heavymeta/chernoff/FacePainter.java:204-214 | the same for `(int)(y * y_factor)` |
| Scaling.Render | java/org/heavymeta/chernoff/FacePainter.java:167-188 | each helper emits one call of its own kind: ovals become ovals, filled ovals filled ovals, lines lines |
| Scaling.IdentityScaling | java/org/heavymeta/chernoff/FacePainter.java:43-46 | in a 100 x 100 target at the origin, scaling is the cast, so every integral coordinate maps to itself |
| Scaling.IdentityOval | java/org/heavymeta/chernoff/FacePainter.java:167-170 | in that target an oval's box is its centre minus its radii, and its size is twice the radii, width radius horizontally |
| Scaling.JoinedOnDeviceIff | java/org/heavymeta/chernoff/FacePainter.java:179-188 | two logical segments that meet are drawn as device lines that meet exactly when the x and y origins are equal |
| Scaling.ScaleXMonotone | java/org/heavymeta/chernoff/FacePainter.java:208-210 | with a positive factor, a larger logical value never scales to a smaller device value |
| Scaling.ScaleAxesAgree | java/org/heavymeta/chernoff/FacePainter.java:200-214 | in a target as tall as wide, both axes scale alike |
| LipCurve.DenomFactors | java/org/heavymeta/chernoff/FacePainter.java:114-117 | `denom` is the Vandermonde product `(x1-x2)(x2-x3)(x1-x3)` |
| LipCurve.DenomZeroIff | java/org/heavymeta/chernoff/FacePainter.java:114-117 | `denom` is zero exactly when two of the abscissae coincide |
| LipCurve.ClearedAt1 | java/org/heavymeta/chernoff/FacePainter.java:114-134 | the numerators of `a`, `bb`, `c` satisfy the first point's equation times `denom` |
| LipCurve.ClearedAt2 | java/org/heavymeta/chernoff/FacePainter.java:114-134 | the same for the second point |
| LipCurve.ClearedAt3 | java/org/heavymeta/chernoff/FacePainter.java:114-134 | the same for the third point |
| LipCurve.Solve | java/org/heavymeta/chernoff/FacePainter.java:114-134 | with distinct abscissae the computed `a`, `bb`, `c` give a parabola through all three points, exactly over the reals |
| LipCurve.ThreePointsDetermine | java/org/heavymeta/chernoff/FacePainter.java:119-134 | two parabolas that agree at three distinct abscissae are equal |
| LipCurve.SolveUnique | java/org/heavymeta/chernoff/FacePainter.java:119-134 | the computed parabola is the only one through the three points |
| LipCurve.SampleCountExact | java/org/heavymeta/chernoff/FacePainter.java:136 | the guard `i <= x2` holds for exactly the first `SampleCount` values of `i` |
| LipCurve.SamplesInRange | java/org/heavymeta/chernoff/FacePainter.java:136 | every sampled `i` lies in `[x1, x2]`, and the next one passes `x2` |
| LipCurve.LipPolyline | java/org/heavymeta/chernoff/FacePainter.java:136-142 | one segment per sampled abscissa, all of them lines |
| LipCurve.LipPolylineShape | java/org/heavymeta/chernoff/FacePainter.java:136-142 | the first segment starts at `(x1, y1)` and ends at `x1`, a vertical step onto the parabola; each starts where the previous ended; every end lies on the parabola in `[x1, x2]`; each segment after the first ends `1 / x_factor` to the right of its start; the loop stops only when the next sample passes `x2` |
| LipCurve.DrawLip | java/org/heavymeta/chernoff/FacePainter.java:109-143 | the loop as written terminates for a positive `x_factor` and draws exactly the closed-form polyline of the solved parabola |
| FacePainter.Eccentricities | java/org/heavymeta/chernoff/FacePainter.java:219-231 | both components are non-negative; above 0.5 only the first is set, otherwise only the second |
| FacePainter.EccentricityMagnitude | java/org/heavymeta/chernoff/FacePainter.java:219-231 | the distortion is `(int)(abs(p-0.5)*20)`: none at 0.5, (10, 0) at 1, (0, 10) at 0, at most 10 in [0, 1] |
| FacePainter.EccentricityMonotone | java/org/heavymeta/chernoff/FacePainter.java:219-231 | the distortion never shrinks as `p` moves away from 0.5 |
| FacePainter.Head | java/org/heavymeta/chernoff/FacePainter.java:64-69 | a head oval at (50, 50): for p1 > 0.5 the width radius is `head_radius` and the vertical one is at least that; otherwise the reverse |
| FacePainter.HeadStretch | java/org/heavymeta/chernoff/FacePainter.java:64-69 | the two radii exceed `head_radius` by exactly the distortion in total |
| FacePainter.DrawHeadOrientation | java/org/heavymeta/chernoff/FacePainter.java:64-69 | in a square target the head is drawn at least as tall as wide when p1 > 0.5, and at least as wide as tall otherwise |
| FacePainter.EyeSpacing | java/org/heavymeta/chernoff/FacePainter.java:74 | negative exactly when p7 <= 0.4 and positive exactly when p7 >= 0.6 (zero in between, by truncation); within [-5, 5] for p7 in [0, 1] |
| FacePainter.EyeSize | java/org/heavymeta/chernoff/FacePainter.java:75 | within [-2, 2] for p8 in [0, 1] |
| FacePainter.Eyes | java/org/heavymeta/chernoff/FacePainter.java:72-80 | two eye ovals of identical radii on the line `eye_y`, symmetric about the midpoint of `eye_left_x` and `eye_right_x`, moved apart by twice the spacing |
| FacePainter.PupilSize | java/org/heavymeta/chernoff/FacePainter.java:84 | at least 2, and exactly 2 for every p3 up to 5 |
| FacePainter.Pupils | java/org/heavymeta/chernoff/FacePainter.java:83-88 | two filled ovals with both radii `pupil_size`, on the line `eye_y` |
| FacePainter.PupilsCentredInEyes | java/org/heavymeta/chernoff/FacePainter.java:72-88 | each pupil's centre is its eye's centre |
| FacePainter.Eyebrows | java/org/heavymeta/chernoff/FacePainter.java:91-97 | brows run between the layout's x ends; `y1 + y2 == 2*eyebrow_y`; the right brow swaps the left's heights; the tilt is at most 5 for p4 in [0, 1] |
| FacePainter.DefaultEyebrowsMirrored | java/org/heavymeta/chernoff/FacePainter.java:91-97 | with the default layout the left brow runs from x 35 to 45 and the right brow is its mirror image in x = 50 |
| FacePainter.NoseBaseY | java/org/heavymeta/chernoff/FacePainter.java:101 | the base height lies in [53, 57] for p5 in [0, 1] |
| FacePainter.Nose | java/org/heavymeta/chernoff/FacePainter.java:100-106 | a closed triangle from the apex: each line ends where the next starts and the last returns to the apex; the base is horizontal, centred under the apex, `2*(nose_width/2)` wide |
| FacePainter.NoseIgnoresNoseHeight | java/org/heavymeta/chernoff/FacePainter.java:100-106 | `nose_height` has no effect on the nose, and the apex height does not move the base |
| FacePainter.Mouth | java/org/heavymeta/chernoff/FacePainter.java:146-157 | corners on `mouth_y` symmetric about x = 50 with the third point at the midpoint; the three abscissae are distinct exactly when p9 != -0.5; the corners lie in [35, 45] and [55, 65] for p9 in [0, 1] |
| FacePainter.Lips | java/org/heavymeta/chernoff/FacePainter.java:155-156 | `2*LipSegmentCount` shapes, all of them segments |
| FacePainter.LipsOnCurves | java/org/heavymeta/chernoff/FacePainter.java:146-157 | the lower lip comes first, then the upper lip: both start at the left corner; the first `LipSegmentCount` segments end on the parabola through the corners and the curve point, the rest on the one through the raised point |
| FacePainter.LipsThroughMouthPoints | java/org/heavymeta/chernoff/FacePainter.java:146-157 | both lips' parabolas pass through the two corners, the lower one through the curve point and the upper one through the raised point |
| FacePainter.LipsChained | java/org/heavymeta/chernoff/FacePainter.java:136-142 | within each lip every segment starts where the previous one ended |
| FacePainter.Face | java/org/heavymeta/chernoff/FacePainter.java:55-60 | the logical shapes `draw` hands to the helpers: a head oval, two eye ovals and two filled pupils, then only segments; `10 + 2*LipSegmentCount` shapes in all |
| FacePainter.Draw | java/org/heavymeta/chernoff/FacePainter.java:53-61 | the device calls: 1 head oval, 2 eye ovals, 2 filled pupils, then only lines; `10 + 2*LipSegmentCount` calls in all |
| FacePainter.FaceParts | java/org/heavymeta/chernoff/FacePainter.java:53-61 | the face's shapes come in drawing order: head, left and right eye, left and right pupil, the two brows, the three nose lines, then the lips |
| FacePainter.DrawFront | java/org/heavymeta/chernoff/FacePainter.java:53-57 | the first five calls render the head, the two eyes and the two pupils |
| FacePainter.DrawBrowsAndNose | java/org/heavymeta/chernoff/FacePainter.java:58-59 | device calls 6 and 7 render the left and right brow, calls 8 to 10 the three nose lines |
| FacePainter.DrawEyesMatched | java/org/heavymeta/chernoff/FacePainter.java:72-88 | on the device the eyes are identical ovals at one height, and so are the pupils |
| FacePainter.DrawNoseClosedIff | java/org/heavymeta/chernoff/FacePainter.java:100-106 | the nose is a closed triangle on the device exactly when the target's x and y coordinates are equal |
| FacePainter.DrawLipsJoinedIff | java/org/heavymeta/chernoff/FacePainter.java:136-142 | with at least two segments per lip, consecutive lip segments join on the device exactly when the target's x and y are equal |
| FacePainter.RenderOvalOrientation | java/org/heavymeta/chernoff/FacePainter.java:167-170 | in a square target an oval with the larger vertical radius is drawn at least as tall as wide, and vice versa |
| FacePainter.HalfwayHead | java/org/heavymeta/chernoff/FacePainter.java:64-69 | at p1 = 0.5 the head is a circle of radius `head_radius` |
| FacePainter.HalfwayEyes | java/org/heavymeta/chernoff/FacePainter.java:72-80 | at p2 = p7 = p8 = 0.5 the eyes are circles of radius `eye_radius` at their layout positions |
| FacePainter.HalfwayHeadDrawn | java/org/heavymeta/chernoff/FacePainter.java:53-69 | at p1 = 0.5 in a 200 x 200 target the head is drawn as the box (40, 40, 120, 120): radius 60 about (100, 100) |
| FacePainter.HalfwayDefaultEyes | java/org/heavymeta/chernoff/FacePainter.java:72-80 | with the default layout and p2 = p7 = p8 = 0.5 the eyes are circles of radius 5 at (40, 40) and (60, 40) |
| FacePainter.HalfwayEyesDrawn | java/org/heavymeta/chernoff/FacePainter.java:53-80 | at p2 = p7 = p8 = 0.5 in that target the eyes are drawn with radius 10 about (80, 80) and (120, 80) |
| Animation.NewTimer | java/org/heavymeta/chernoff/Animation.java:46-57 | a new timer runs at 10 frames per second, reports complete and has no job |
| Animation.FrameDelay | java/org/heavymeta/chernoff/Animation.java:90 | `1000 / FPS` truncated: positive exactly for FPS in [1, 1000], negative exactly for FPS in [-1000, -1] |
| Animation.Plan | java/org/heavymeta/chernoff/Animation.java:90-104 | the loop throws exactly when FPS is 0 (`ArithmeticException`, no frame) or in [-1000, -1] (`IllegalArgumentException` after one frame); it never ends exactly when the duration is non-zero and FPS is above 1000, below -1000, or positive with a negative duration |
| Animation.FrameCountExact | java/org/heavymeta/chernoff/Animation.java:90-96 | the frame count is the number of whole frame delays that fall strictly short of the duration |
| Animation.TimeBelowOne | java/org/heavymeta/chernoff/Animation.java:91-96 | after k steps `t < 1` exactly when `k * frame_delay < duration` |
| Animation.PlanMatchesLoop | java/org/heavymeta/chernoff/Animation.java:87-105 | finite schedules show a frame exactly at the steps where `t < 1`; a never-ending schedule has `dt <= 0`, so `t` stays below 1 at every step |
| Animation.Expected | java/org/heavymeta/chernoff/Animation.java:87-105 | the run raises an exception exactly when FPS is 0 or in [-1000, -1], and then sleeps nothing and shows no frame for FPS 0 and exactly one frame otherwise; otherwise it sleeps `frame_delay` per frame; every frame's state is `interpolate(start, end, t)` and the first is at `t = 0` |
| Animation.ExpectedTiming | java/org/heavymeta/chernoff/Animation.java:87-105 | for FPS in [1, 1000] and a positive duration the loop completes. The first frame is `interpolate(start, end, 0)`. Every `t` is in [0, 1), each frame's state is `interpolate(start, end, t)`, and the `t` values increase by exactly `dt`. The total sleep is at least the duration and less than one frame delay more |
| Animation.DoAnimation | java/org/heavymeta/chernoff/Animation.java:87-105 | the loop as written terminates whenever the schedule is finite and produces exactly the scheduled frames, sleeps and exception |
| Animation.DoSyncAnimation | java/org/heavymeta/chernoff/Animation.java:67-72 | records the job, runs the loop and leaves `complete` and FPS unchanged |
| Animation.StartAsync | java/org/heavymeta/chernoff/Animation.java:77-84 | records the job and clears `complete` before the thread starts |
| Animation.Run | java/org/heavymeta/chernoff/Animation.java:107-110 | runs the loop on the recorded job; afterwards `complete` holds exactly when it held before or the loop returned normally |
| Animation.DoAsyncAnimation | java/org/heavymeta/chernoff/Animation.java:77-110 | `doAsyncAnimation` followed by the thread's `run`: the job is recorded, the frames are the loop's, and afterwards `complete` holds exactly when FPS is neither 0 nor in [-1000, -1] |
| Animation.DefaultRateFrames | java/org/heavymeta/chernoff/Animation.java:87-105 | at the default 10 FPS a duration of d ms gives `ceil(d / 100)` frames at `t = 100k / d`, so 1000 ms gives 10 frames |

## Left out

- Drawing: the AWT `Graphics` object is replaced by the returned call sequence. Colours,
  the graphics context and `xCircle`, which nothing calls, are not modelled.
- Threads: the thread, `Thread.sleep` and the swallowed `InterruptedException` are not
  modelled. Sleeps are summed into `slept`, and the asynchronous path is `StartAsync`
  followed by `Run` in sequence. Nothing about concurrent observers of `complete` is stated.
- IEEE doubles: every double is a real, so results are exact rather than rounded. For
  example, adding `dt = 0.1` ten times gives 0.9999999999999999 in doubles, which shows an
  eleventh frame that the real-valued model does not. Truncation near integral values can
  differ the same way.
- Animation.Plan: with a zero duration the step is infinite, or NaN when the frame delay
  is also 0. Both make the loop body run once; the model uses the step 1.0, which has the
  same effect.
- FacePainter.EyeSpacing: the thresholds 0.4 and 0.6 and the values near them hold over
  the reals only. In Java `(int)((0.6 - 0.5) * 10)` is `(int)0.9999999999999998`, which
  is 0, and p7 = 0.7 gives 1 rather than 2. The truncations in `EyeSize`, `NoseBaseY`,
  the brow tilt and `Eccentricities` can differ the same way.
- Animation.DefaultRateFrames: states the real-valued schedule. In Java's doubles,
  1000 ms at 10 FPS adds `dt = 0.1` ten times to 0.9999999999999999 and shows an eleventh
  frame, where the model shows 10.
- Java `int` overflow and the saturation of `(int)` on huge doubles are not modelled;
  integers are unbounded.
- FacePainter.Draw: requires `width > 0`. When p9 >= -0.5 (so the left corner is not
  right of the right corner), width 0 makes the lip step `1.0 / x_factor` infinite in Java
  (one segment per lip), and a negative width makes the lip loop never end. When
  p9 < -0.5 the guard `i <= x2` fails at once and Java draws no lip segment, whatever the
  width; the model does not cover that case for widths up to 0 either.
- FacePainter.Draw: requires `p9 != -0.5`. There the mouth corners coincide, `denom` is 0
  and the lip ordinates are NaN.
- Animation.DoAnimation: requires a schedule that is not `Forever`. The non-terminating
  loop cannot be run as a method, so for it `PlanMatchesLoop` proves only that `t` never
  reaches 1.
- Animation.DoSyncAnimation: requires a schedule that is not `Forever`, for the same
  reason as `DoAnimation`.
- Animation.DoAsyncAnimation: requires a schedule that is not `Forever`, for the same
  reason as `DoAnimation`. Java accepts those inputs (FPS above 1000, below -1000, or
  positive with a negative duration): the thread then never ends, so after `StartAsync`
  the flag stays false for ever, and `StartAsync`'s own contract (`!after.complete`) is
  all the model states for them.
- Animation.Run: requires a schedule that is not `Forever`, for the same reason, and a
  recorded job. Java's `run` before any `doSyncAnimation` or `doAsyncAnimation` would
  dereference the null `start` (unless FPS is 0, when `1000 / FPS` throws first).
- Animation.Expected: requires a schedule that is not `Forever`; a never-ending run has
  no final outcome.
- LipCurve.DrawLip: requires `x_factor > 0`. For `x1 <= x2` a zero factor makes the step
  `1.0 / x_factor` infinite (one segment), and a negative factor makes it negative (the
  loop never ends). For `x1 > x2` Java draws nothing whatever the factor; the model does
  not cover that case for factors up to 0 either.
- LipCurve.DrawLip: requires `denom != 0`. With two equal abscissae Java divides by zero
  and draws NaN ordinates.
- LipCurve.Solve: requires `denom != 0`, for the same reason.
- FacePainter.Lips: requires `p9 != -0.5` and `x_factor > 0`, for the same reasons as
  `Draw`.
- FacePainter.Face: requires `p9 != -0.5` and `x_factor > 0`, for the same reasons as
  `Draw`.
- FaceVectors.Distance: `Math.sqrt` is a function parameter, and only the facts a caller
  supplies about it are used. The triangle inequality is not stated.
- FaceVectors.DistanceOfAgreeing: proves that agreeing parameters give squared distance 0.
  The converse, that a zero distance forces agreement, is not proved.
- The random constructor of `FaceVector` depends on `java.util.Random` and is not modelled.
- `interpolate` of a face vector: the face vector's doc comment claims it implements
  `AnimationState`, but the class declares no `interpolate`. The interpolation is
  therefore an arbitrary function parameter, with no endpoint or betweenness facts.
- `Animator` / `AnimationState` are the interfaces the timer calls. `AnimationState` is the
  type parameter `S`, and its `interpolate` is the function parameter `interp`. `Animator`
  is not modelled as a value: its `animate` calls are the recorded `Frame`s of the outcome.
