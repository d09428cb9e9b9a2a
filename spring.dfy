/** The spring integrator that drags one interior control point towards its target:
    BezierModel.updatePoint as a function of the position, velocity, target, time step and
    the two physics constants. */
module Spring {
  import opened Geometry

  /** The position update's scale per unit of dt: `BezierModel.updatePoint` multiplies by
      60.0 and then by 0.016, which over the reals is 0.96. */
  const PositionScale: real := 60.0 * 0.016

  /** One dynamic control point: its position and its velocity. */
  datatype State = State(pos: Point, vel: Vector)

  /** Hooke's pull towards the target with linear damping: -k (pos - target) - damping vel. */
  function Acceleration(s: State, target: Point, k: real, damping: real): Vector {
    Plus(Times(-k, Diff(s.pos, target)), Times(-damping, s.vel))
  }

  predicate AtRest(s: State, target: Point) {
    s.pos == target && s.vel == ZeroVector
  }

  /** One semi-implicit Euler step: the velocity is updated first, and the position then moves
      by the NEW velocity times dt * 0.96. */
  function Advance(s: State, target: Point, dt: real, k: real, damping: real): (r: State)
    ensures r.vel == Plus(s.vel, Times(dt, Acceleration(s, target, k, damping)))
    ensures r.pos == Translate(Translate(s.pos, Times(0.96 * dt, s.vel)),
                               Times(0.96 * dt * dt, Acceleration(s, target, k, damping)))
    ensures dt == 0.0 ==> r == s
    ensures AtRest(s, target) ==> r == s
  {
    var vel := Plus(s.vel, Times(dt, Acceleration(s, target, k, damping)));
    State(Translate(s.pos, Times(dt * PositionScale, vel)), vel)
  }

  /** The worked example of a single pull: from (300, 125) at rest towards (400, 125) with the
      default constants, one 60 Hz step gives velocity (0.2, 0) and position (300.0032, 125). */
  lemma PullExample()
    ensures Advance(State(Point(300.0, 125.0), ZeroVector), Point(400.0, 125.0), 1.0 / 60.0, 0.12, 0.14)
         == State(Point(300.0032, 125.0), Vector(0.2, 0.0))
  {
  }

  /** The x and y axes do not interact: the new x position and x velocity depend only on the
      x parts of the position, velocity and target. */
  lemma AxesIndependent(s: State, s': State, target: Point, target': Point, dt: real, k: real, damping: real)
    requires s.pos.x == s'.pos.x && s.vel.dx == s'.vel.dx && target.x == target'.x
    ensures Advance(s, target, dt, k, damping).pos.x == Advance(s', target', dt, k, damping).pos.x
    ensures Advance(s, target, dt, k, damping).vel.dx == Advance(s', target', dt, k, damping).vel.dx
  {
  }

  /** The state of the mirror-image spring under the point reflection p |-> c - p. */
  function Mirror(c: Point, s: State): State {
    State(Reflect(c, s.pos), Negate(s.vel))
  }

  /** The step is affine, so it commutes with a point reflection: a spring pulled towards the
      mirror image of a target moves as the mirror image of the spring pulled towards it. */
  lemma AdvanceMirrored(c: Point, s: State, target: Point, dt: real, k: real, damping: real)
    ensures Advance(Mirror(c, s), Reflect(c, target), dt, k, damping)
         == Mirror(c, Advance(s, target, dt, k, damping))
  {
  }
}
