# Interactive cubic Bézier curve: animation and physics core in Dafny

This project models the animation core of an iOS app. The app draws a cubic Bézier curve whose
two interior control points follow targets through spring physics. A drag sets the targets, and
so does device tilt in the handler that `setupMotionMapping` evidently intends; as written, that
handler's subscription is dropped at once (see "## Left out"). The model covers:

- **Bézier evaluator** (`Bezier`, and `CurveModel.BezierModel.BezierPoint` /
  `BezierDerivative`). The Bernstein closed forms of `bezierPoint` and `bezierDerivative` are proved equal to de Casteljau's
  construction, which serves as an independent reference. The endpoint values and endpoint
  derivatives follow, and so do partition of unity, reversal symmetry and reflection symmetry.
  `normalized` is modelled too.
- **Spring integrator** (`Spring.Advance`, `CurveModel.BezierModel.UpdatePoint`). It takes one
  semi-implicit Euler step with the fixed position scale `dt * 60 * 0.016`.
- **Curve model** (`CurveModel`). `ModelState` holds every field of `BezierModel`. The
  functions `Layout`, `FrameDt` and `Tick` specify the layout rule and the frame tick. The class
  `BezierModel` updates its fields in place, as the app does, and its methods are proved
  against those functions. The display link is modelled as the flag `armed`. A ghost counter
  `liveTickers` counts links that were created and not yet invalidated, and the class invariant
  keeps it at one while armed and zero otherwise.
- **View mapping** (`ContentView`). It turns tilt or a drag into targets, and keeps the
  canvas size in sync.

All quantities are Dafny `real`s. The display link's timestamp is a parameter of `Step`.

One property goes beyond single operations. The first layout makes the configuration
point-symmetric through the surface's centre. Ticks preserve this symmetry, and so does writing
tilt or drag targets. A symmetric configuration draws a curve whose point at `1 - t` is the
mirror image of its point at `t` (`CurveModel.CurveSymmetric`).

Two properties of the frame clock are easy to miss:

- The first tick after `start` has `dt = 0` however late it comes, because `step` first sets
  `lastTimestamp` to the tick's own timestamp (`CurveModel.FrameDtExamples`).
- The clamp `min(ts - last, 1/30)` has no lower bound. A timestamp earlier than the previous one
  gives a negative `dt`, and the model keeps that.

## Model

| member | source | states |
|---|---|---|
| `Bezier.CasteljauIsBernstein` | BezierModel.swift:96-103 | one coordinate of de Casteljau's construction equals the Bernstein combination `u³a0 + 3u²t·a1 + 3ut²·a2 + t³a3` |
| `Bezier.CasteljauTangent` | BezierModel.swift:107-112 | three times one coordinate of the construction's last segment equals `3u²(a1-a0) + 6ut(a2-a1) + 3t²(a3-a2)` |
| `Bezier.CurvePointBernstein` | BezierModel.swift:95-105 | the de Casteljau point equals the Bernstein-weighted combination of the four control points, in both coordinates |
| `Bezier.WeightsSumToOne` | BezierModel.swift:96-100 | the four Bernstein weights sum to 1 at every t |
| `Bezier.CurveConstant` | BezierModel.swift:95-105 | four equal control points give a constant curve |
| `Bezier.CurveReversed` | BezierModel.swift:95-105 | reversing the control points traverses the same curve backwards: point at 1 - t of the reversed curve equals point at t |
| `Bezier.CurveReflected` | BezierModel.swift:95-105 | reflecting all control points through a centre reflects every curve point |
| `Bezier.Normalized` | BezierModel.swift:115-119 | given the magnitude `sqrt(dx²+dy²)`, the zero vector normalises to zero, and for a nonzero magnitude the result times the magnitude is v (same direction, scaled by 1/|v|) |
| `Bezier.NormalizedUnitLength` | BezierModel.swift:115-119 | a nonzero vector normalises to a vector of unit length |
| `Spring.Advance` | BezierModel.swift:82-92 | velocity first gains `a·dt` with `a = -k(p - target) - damping·v`; position then moves by the new velocity, i.e. `p + 0.96·dt·v + 0.96·dt²·a`; `dt = 0` and a spring at rest on its target are fixed points |
| `Spring.PullExample` | BezierModel.swift:84-91 | from (300,125) at rest towards (400,125), k = 0.12, damping = 0.14, dt = 1/60: velocity (0.2, 0), position (300.0032, 125) |
| `Spring.AxesIndependent` | BezierModel.swift:84-91 | the x results depend only on the x inputs (likewise y) |
| `Spring.AdvanceMirrored` | BezierModel.swift:82-92 | the step commutes with a point reflection of position, velocity and target |
| `CurveModel.FrameDt` | BezierModel.swift:68-70 | dt never exceeds 1/30; it is 0 on the first tick after start (last = 0); otherwise it is `ts - last`, clamped to 1/30 |
| `CurveModel.FrameDtExamples` | BezierModel.swift:68-70 | first tick at 10 s gives dt 0; a 5 s pause gives 1/30; a 1/60 s gap gives 1/60 |
| `CurveModel.Layout` | BezierModel.swift:35-52 | with w, h > 0: P0 = (0.1w, 0.5h), P3 = (0.9w, 0.5h); if P1 = P2 = origin beforehand, P1 = (0.3w, 0.25h), P2 = (0.7w, 0.75h) and both targets equal them, otherwise P1, P2 and targets unchanged; with w ≤ 0 or h ≤ 0 nothing changes; velocities, constants, clock, size and link are never touched |
| `CurveModel.LayoutIdempotent` | BezierModel.swift:29-52 | laying out twice equals laying out once |
| `CurveModel.LayoutExample` | BezierModel.swift:40-51 | first layout of 1000 x 500: P0 (100,250), P3 (900,250), P1 (300,125), P2 (700,375), targets equal P1, P2 |
| `CurveModel.Tick` | BezierModel.swift:67-74 | the clock becomes ts; P1/v1 advance from targetP1 and P2/v2 from targetP2 by the clamped dt; endpoints, targets, constants, size and link are unchanged; on the first tick after start nothing moves |
| `CurveModel.TickSeparatesSprings` | BezierModel.swift:73-74 | changing targetP2 does not change how P1/v1 move, and vice versa |
| `CurveModel.TicksFrame` | BezierModel.swift:67-74 | any run of ticks leaves endpoints, targets, constants, size and link unchanged, and leaves the clock at the last timestamp |
| `CurveModel.TicksAtRest` | BezierModel.swift:67-92 | springs at rest on their targets stay there over any run of ticks; only the clock changes |
| `CurveModel.LayoutSymmetric` | BezierModel.swift:40-51 | the seeding layout of a positive size yields a configuration point-symmetric through the centre |
| `CurveModel.TickSymmetric` | BezierModel.swift:67-92 | a tick keeps a symmetric configuration symmetric |
| `CurveModel.TicksSymmetric` | BezierModel.swift:67-92 | so does any run of ticks |
| `CurveModel.CurveSymmetric` | BezierModel.swift:95-105 | a symmetric configuration draws a curve whose point at 1 - t mirrors its point at t |
| `CurveModel.BezierModel.constructor` | BezierModel.swift:5-29 | all points, velocities and targets zero, k = 0.12, damping = 0.14, clock 0, size zero, no display link |
| `CurveModel.BezierModel.SetSize` | BezierModel.swift:29-33 | stores the size, then the whole new state is `Layout` of it; invariant kept |
| `CurveModel.BezierModel.LayoutInitialPoints` | BezierModel.swift:35-52 | new state is `Layout` of the old one; it re-establishes the class invariant (endpoints placed for the current size) even when called right after the size changed |
| `CurveModel.BezierModel.Start` | BezierModel.swift:55-60 | clock reset to 0, armed, exactly one live display link (a previous one is invalidated, not kept), nothing else changes |
| `CurveModel.BezierModel.Stop` | BezierModel.swift:62-65 | disarmed with no live display link, nothing else changes; idempotent |
| `CurveModel.BezierModel.Step` | BezierModel.swift:67-80 | new state is `Tick(old state, timestamp)`; invariant kept |
| `CurveModel.BezierModel.UpdatePoint` | BezierModel.swift:82-92 | the componentwise updates compute exactly `Spring.Advance` with the model's k and damping |
| `CurveModel.BezierModel.BezierPoint` | BezierModel.swift:95-105 | equals the de Casteljau point; is P0 at t = 0 and P3 at t = 1; constant when all control points coincide |
| `CurveModel.BezierModel.BezierDerivative` | BezierModel.swift:107-113 | equals three times the last de Casteljau segment; is 3(P1 - P0) at t = 0 and 3(P3 - P2) at t = 1 |
| `ContentView.TiltTargets` | ContentView.swift:88-102 | target1 + target2 = (width, height) for every tilt; with roll = pitch = 0 the targets are (0.3w, 0.3h) and (0.7w, 0.7h) |
| `ContentView.TiltAxes` | ContentView.swift:93-102 | a change of roll moves both x coordinates by ±0.45·width per radian in opposite directions; a change of pitch does the same for y with height; neither touches the other axis |
| `ContentView.TiltIgnoresYaw` | ContentView.swift:88-102 | yaw never affects the targets |
| `ContentView.DragTargets` | ContentView.swift:56-59 | target1 = 0.6·loc and target1 + target2 = (width, height) |
| `ContentView.BalancedKeepsSymmetry` | ContentView.swift:101-102 | writing centre-balanced targets keeps a symmetric configuration symmetric |
| `ContentView.OnMotionSample` | ContentView.swift:83-103 | with width ≤ 0 nothing changes; otherwise both targets are overwritten by `TiltTargets` and nothing else changes |
| `ContentView.OnDrag` | ContentView.swift:54-60 | both targets are overwritten by `DragTargets` and nothing else changes |
| `ContentView.SyncCanvasSize` | ContentView.swift:15-18 | a new canvas size gives exactly one layout's effect, though layout runs twice; the same size changes nothing |

## Left out

- CADisplayLink scheduling, the run loop, `DispatchQueue.main.async` and `objectWillChange`
  publishing (BezierModel.swift:57-59, 77-79) are runtime plumbing. The link is the `armed`
  flag, and a tick is a call of `Step` with the link's timestamp. The model does not stop
  `Step` from being called while disarmed.
- Floating point: `CGFloat` and `CFTimeInterval` are modelled as exact reals. So
  `60.0 * 0.016` is exactly 0.96 and `1.0 / 30.0` is exactly 1/30, with no rounding.
- Dafny's reals have no square root, so `normalized`'s magnitude `sqrt(dx² + dy²)` is a
  parameter of `Bezier.Normalized` whose square its requires fixes.
- Spring convergence over many ticks and energy decay are long-run numerical behaviour and are
  not modelled.
- Drawing is UI and is not modelled: the `stride` sampling loops, the tangent segments, the
  control-point markers, Canvas and Path (ContentView.swift:20-51). The sample count of a
  floating-point `stride` is not a fact about reals.
- The gesture plumbing is an event source. The drag handler is modelled as a method that runs
  once per drag event (ContentView.swift:54-60).
- `ContentView.OnMotionSample` models what the 60 Hz timer's sink would do on each tick
  (ContentView.swift:84-102), not what `setupMotionMapping` does as written. The code binds
  the `AnyCancellable` that `sink` returns to `_` (ContentView.swift:81-83). Combine cancels a
  subscription when its `AnyCancellable` is deinitialised, so the subscription ends as soon as
  `setupMotionMapping` returns, and tilt never reaches the targets; only a drag changes them.
  The model has no notion of subscription lifetime, so it does not capture this cancellation.
- `onAppear` (ContentView.swift:61-68) calls `layoutInitialPoints` and `start`, which are
  modelled, and `setupMotionMapping`, whose handler is `ContentView.OnMotionSample` (see the
  line above). `onDisappear` (ContentView.swift:69-72) calls `stop`, which is modelled, and
  the motion manager's `stop`, which is out of scope.
- MotionManager.swift is not part of this model. Pitch, roll and yaw are plain inputs.
