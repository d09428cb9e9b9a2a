/** The curve model of BezierModel.swift: the four control points, the two springs and
    their targets, the physics constants, the frame clock and the layout rule. Each operation
    is a function on a ModelState value, and the class BezierModel, whose methods update
    fields as the Swift `BezierModel` does, is proved against those functions. */
module CurveModel {
  import opened Geometry
  import Spring
  import Bezier

  /** The upper clamp of a frame's time step, in seconds. */
  const MaxDt: real := 1.0 / 30.0

  const DefaultK: real := 0.12

  const DefaultDamping: real := 0.14

  /** Every field of a BezierModel. `armed` stands for "displayLink is not nil". */
  datatype ModelState = ModelState(
    P0: Point, P1: Point, P2: Point, P3: Point,
    v1: Vector, v2: Vector,
    targetP1: Point, targetP2: Point,
    k: real, damping: real,
    lastTimestamp: real,
    size: Size,
    armed: bool)

  /** A freshly constructed model: every point, velocity and target zero. */
  const Initial := ModelState(Origin, Origin, Origin, Origin, ZeroVector, ZeroVector,
                              Origin, Origin, DefaultK, DefaultDamping, 0.0, ZeroSize, false)

  /** Once a positive size has been laid out, the endpoints sit at 10% and 90% of the width,
      half-way down. */
  predicate EndpointsPlaced(s: ModelState) {
    var w, h := s.size.width, s.size.height;
    0.0 < w && 0.0 < h ==> s.P0 == Point(w * 0.1, h * 0.5) && s.P3 == Point(w * 0.9, h * 0.5)
  }

  /** Swift's min(a, b). */
  function Min(a: real, b: real): real {
    if b < a then b else a
  }

  /** The time step of a tick at `timestamp` when the previous tick was at `last`, where a
      `last` of 0 marks the first tick after start. */
  function FrameDt(last: real, timestamp: real): (dt: real)
    ensures dt <= MaxDt
    ensures last == 0.0 ==> dt == 0.0
    ensures last != 0.0 && timestamp - last <= MaxDt ==> dt == timestamp - last
    ensures last != 0.0 && MaxDt <= timestamp - last ==> dt == MaxDt
  {
    var from := if last == 0.0 then timestamp else last;
    Min(timestamp - from, MaxDt)
  }

  /** The first tick after start has a zero step however late it comes, because the clock is
      first set to the tick's own timestamp; a later tick after a long pause is clamped. */
  lemma FrameDtExamples()
    ensures FrameDt(0.0, 10.0) == 0.0
    ensures FrameDt(5.0, 10.0) == MaxDt
    ensures FrameDt(10.0, 10.0 + 1.0 / 60.0) == 1.0 / 60.0
  {
  }

  /** layoutInitialPoints: place the endpoints for the current size and, whenever both interior
      points are at the origin (in practice, the first layout), seed the interior points and
      their targets. */
  function Layout(s: ModelState): (r: ModelState)
    ensures !(0.0 < s.size.width && 0.0 < s.size.height) ==> r == s
    ensures EndpointsPlaced(r)
    ensures 0.0 < s.size.width && 0.0 < s.size.height && s.P1 == Origin && s.P2 == Origin ==>
              r.P1 == Point(s.size.width * 0.3, s.size.height * 0.25) &&
              r.P2 == Point(s.size.width * 0.7, s.size.height * 0.75) &&
              r.targetP1 == r.P1 && r.targetP2 == r.P2
    ensures !(s.P1 == Origin && s.P2 == Origin) ==>
              r.P1 == s.P1 && r.P2 == s.P2 && r.targetP1 == s.targetP1 && r.targetP2 == s.targetP2
    ensures r.v1 == s.v1 && r.v2 == s.v2 && r.k == s.k && r.damping == s.damping
    ensures r.lastTimestamp == s.lastTimestamp && r.size == s.size && r.armed == s.armed
  {
    var w, h := s.size.width, s.size.height;
    if !(w > 0.0 && h > 0.0) then
      s
    else
      var placed := s.(P0 := Point(w * 0.1, h * 0.5), P3 := Point(w * 0.9, h * 0.5));
      if placed.P1 == Origin && placed.P2 == Origin then
        var p1, p2 := Point(w * 0.3, h * 0.25), Point(w * 0.7, h * 0.75);
        placed.(P1 := p1, P2 := p2, targetP1 := p1, targetP2 := p2)
      else
        placed
  }

  /** Laying out twice is laying out once: the size setter and the view both call it. */
  lemma LayoutIdempotent(s: ModelState)
    ensures Layout(Layout(s)) == Layout(s)
  {
  }

  /** The first layout of a 1000 x 500 surface. */
  lemma LayoutExample()
    ensures var r := Layout(Initial.(size := Size(1000.0, 500.0)));
            r.P0 == Point(100.0, 250.0) && r.P3 == Point(900.0, 250.0) &&
            r.P1 == Point(300.0, 125.0) && r.P2 == Point(700.0, 375.0) &&
            r.targetP1 == r.P1 && r.targetP2 == r.P2
  {
  }

  /** step: one display-link tick at `timestamp`. */
  function Tick(s: ModelState, timestamp: real): (r: ModelState)
    ensures r.lastTimestamp == timestamp
    ensures Spring.State(r.P1, r.v1)
         == Spring.Advance(Spring.State(s.P1, s.v1), s.targetP1, FrameDt(s.lastTimestamp, timestamp), s.k, s.damping)
    ensures Spring.State(r.P2, r.v2)
         == Spring.Advance(Spring.State(s.P2, s.v2), s.targetP2, FrameDt(s.lastTimestamp, timestamp), s.k, s.damping)
    ensures r.P0 == s.P0 && r.P3 == s.P3 && r.targetP1 == s.targetP1 && r.targetP2 == s.targetP2
    ensures r.k == s.k && r.damping == s.damping && r.size == s.size && r.armed == s.armed
    ensures s.lastTimestamp == 0.0 ==> r.P1 == s.P1 && r.v1 == s.v1 && r.P2 == s.P2 && r.v2 == s.v2
  {
    var dt := FrameDt(s.lastTimestamp, timestamp);
    var a := Spring.Advance(Spring.State(s.P1, s.v1), s.targetP1, dt, s.k, s.damping);
    var b := Spring.Advance(Spring.State(s.P2, s.v2), s.targetP2, dt, s.k, s.damping);
    s.(P1 := a.pos, v1 := a.vel, P2 := b.pos, v2 := b.vel, lastTimestamp := timestamp)
  }

  /** Each interior point follows its own target only: changing targetP2 does not change how
      P1 moves, and changing targetP1 does not change how P2 moves. */
  lemma TickSeparatesSprings(s: ModelState, timestamp: real, other: Point)
    ensures Tick(s.(targetP2 := other), timestamp).P1 == Tick(s, timestamp).P1
    ensures Tick(s.(targetP2 := other), timestamp).v1 == Tick(s, timestamp).v1
    ensures Tick(s.(targetP1 := other), timestamp).P2 == Tick(s, timestamp).P2
    ensures Tick(s.(targetP1 := other), timestamp).v2 == Tick(s, timestamp).v2
  {
  }

  /** The ticks at the given timestamps, in order. */
  function Ticks(s: ModelState, stamps: seq<real>): ModelState
    decreases |stamps|
  {
    if stamps == [] then s else Ticks(Tick(s, stamps[0]), stamps[1..])
  }

  /** No run of ticks moves the endpoints, the targets, the constants or the size, and the
      clock ends at the last timestamp. */
  lemma {:induction false} TicksFrame(s: ModelState, stamps: seq<real>)
    ensures var r := Ticks(s, stamps);
            r.P0 == s.P0 && r.P3 == s.P3 && r.targetP1 == s.targetP1 && r.targetP2 == s.targetP2 &&
            r.k == s.k && r.damping == s.damping && r.size == s.size && r.armed == s.armed &&
            r.lastTimestamp == (if stamps == [] then s.lastTimestamp else stamps[|stamps| - 1])
    decreases |stamps|
  {
    if stamps != [] {
      TicksFrame(Tick(s, stamps[0]), stamps[1..]);
    }
  }

  predicate SpringsAtRest(s: ModelState) {
    Spring.AtRest(Spring.State(s.P1, s.v1), s.targetP1) && Spring.AtRest(Spring.State(s.P2, s.v2), s.targetP2)
  }

  /** Springs at rest on their targets stay there however many ticks run, whatever the
      timestamps: only the clock changes. */
  lemma {:induction false} TicksAtRest(s: ModelState, stamps: seq<real>)
    requires SpringsAtRest(s)
    ensures Ticks(s, stamps) == if stamps == [] then s else s.(lastTimestamp := stamps[|stamps| - 1])
    decreases |stamps|
  {
    if stamps != [] {
      var next := Tick(s, stamps[0]);
      assert next == s.(lastTimestamp := stamps[0]);
      TicksAtRest(next, stamps[1..]);
    }
  }

  /** The whole configuration is point-symmetric through the centre of the surface: P0 and P3,
      P1 and P2, and the two targets are mirror images, and the velocities are opposite. */
  predicate CentrallySymmetric(s: ModelState) {
    var c := Corner(s.size);
    s.P0 == Reflect(c, s.P3) && s.P1 == Reflect(c, s.P2) && s.v1 == Negate(s.v2) &&
    s.targetP1 == Reflect(c, s.targetP2)
  }

  /** The first layout of a positive size produces a symmetric configuration. */
  lemma LayoutSymmetric(s: ModelState)
    requires 0.0 < s.size.width && 0.0 < s.size.height
    requires s.P1 == Origin && s.P2 == Origin && s.v1 == Negate(s.v2)
    ensures CentrallySymmetric(Layout(s))
  {
  }

  /** A tick keeps a symmetric configuration symmetric. */
  lemma TickSymmetric(s: ModelState, timestamp: real)
    requires CentrallySymmetric(s)
    ensures CentrallySymmetric(Tick(s, timestamp))
  {
    var c := Corner(s.size);
    var dt := FrameDt(s.lastTimestamp, timestamp);
    Spring.AdvanceMirrored(c, Spring.State(s.P2, s.v2), s.targetP2, dt, s.k, s.damping);
    assert Spring.State(s.P1, s.v1) == Spring.Mirror(c, Spring.State(s.P2, s.v2));
  }

  /** So does any run of ticks. */
  lemma {:induction false} TicksSymmetric(s: ModelState, stamps: seq<real>)
    requires CentrallySymmetric(s)
    ensures CentrallySymmetric(Ticks(s, stamps))
    decreases |stamps|
  {
    if stamps != [] {
      TickSymmetric(s, stamps[0]);
      TicksSymmetric(Tick(s, stamps[0]), stamps[1..]);
    }
  }

  /** A symmetric configuration draws a point-symmetric curve: the point at 1 - t is the
      mirror image of the point at t. */
  lemma CurveSymmetric(s: ModelState, t: real)
    requires CentrallySymmetric(s)
    ensures Bezier.CurvePoint(s.P0, s.P1, s.P2, s.P3, 1.0 - t)
         == Reflect(Corner(s.size), Bezier.CurvePoint(s.P0, s.P1, s.P2, s.P3, t))
  {
    var c := Corner(s.size);
    Bezier.CurveReversed(s.P0, s.P1, s.P2, s.P3, t);
    Bezier.CurveReflected(c, s.P3, s.P2, s.P1, s.P0, 1.0 - t);
    assert s.P3 == Reflect(c, s.P0) && s.P2 == Reflect(c, s.P1);
  }

  /** BezierModel. The display link is the flag `armed`; `liveTickers` counts the display
      links that have been created and not yet invalidated. */
  class BezierModel {
    var P0: Point
    var P1: Point
    var P2: Point
    var P3: Point
    var v1: Vector
    var v2: Vector
    var targetP1: Point
    var targetP2: Point
    var k: real
    var damping: real
    var armed: bool
    ghost var liveTickers: nat
    var lastTimestamp: real
    var size: Size

    /** At most one display link is ever live, and it is the one the model holds. */
    ghost predicate TickersValid()
      reads this
    {
      liveTickers == if armed then 1 else 0
    }

    ghost predicate Valid()
      reads this
    {
      TickersValid() && EndpointsPlaced(State())
    }

    function State(): ModelState
      reads this
    {
      ModelState(P0, P1, P2, P3, v1, v2, targetP1, targetP2, k, damping, lastTimestamp, size, armed)
    }

    constructor ()
      ensures Valid() && liveTickers == 0
      ensures State() == Initial
    {
      P0, P1, P2, P3 := Origin, Origin, Origin, Origin;
      v1, v2 := ZeroVector, ZeroVector;
      targetP1, targetP2 := Origin, Origin;
      k, damping := DefaultK, DefaultDamping;
      armed, liveTickers := false, 0;
      lastTimestamp := 0.0;
      size := ZeroSize;
    }

    /** The `size` property's setter: store the size, then lay out. */
    method SetSize(newSize: Size)
      requires Valid()
      modifies this
      ensures Valid() && liveTickers == old(liveTickers)
      ensures State() == Layout(old(State()).(size := newSize))
    {
      size := newSize;
      LayoutInitialPoints();
    }

    method LayoutInitialPoints()
      requires TickersValid()
      modifies this
      ensures Valid() && liveTickers == old(liveTickers)
      ensures State() == Layout(old(State()))
    {
      var w := size.width;
      var h := size.height;
      if !(w > 0.0 && h > 0.0) {
        return;
      }
      P0 := Point(w * 0.1, h * 0.5);
      P3 := Point(w * 0.9, h * 0.5);
      if P1 == Origin && P2 == Origin {
        P1 := Point(w * 0.3, h * 0.25);
        P2 := Point(w * 0.7, h * 0.75);
        targetP1 := P1;
        targetP2 := P2;
      }
    }

    /** Reset the clock, invalidate the current display link if any, and install a new one. */
    method Start()
      requires Valid()
      modifies this
      ensures Valid() && armed && liveTickers == 1
      ensures State() == old(State()).(lastTimestamp := 0.0, armed := true)
    {
      lastTimestamp := 0.0;
      if armed {
        liveTickers := liveTickers - 1;
      }
      armed := true;
      liveTickers := liveTickers + 1;
    }

    /** Invalidate the display link, if any, and drop it. */
    method Stop()
      requires Valid()
      modifies this
      ensures Valid() && !armed && liveTickers == 0
      ensures State() == old(State()).(armed := false)
    {
      if armed {
        liveTickers := liveTickers - 1;
      }
      armed := false;
    }

    /** One display-link callback, carrying the link's timestamp. */
    method Step(timestamp: real)
      requires Valid()
      modifies this
      ensures Valid() && liveTickers == old(liveTickers)
      ensures State() == Tick(old(State()), timestamp)
    {
      if lastTimestamp == 0.0 {
        lastTimestamp := timestamp;
      }
      var dt := Min(timestamp - lastTimestamp, MaxDt);
      lastTimestamp := timestamp;
      P1, v1 := UpdatePoint(P1, v1, targetP1, dt);
      P2, v2 := UpdatePoint(P2, v2, targetP2, dt);
    }

    /** updatePoint, whose inout position and velocity are taken in and handed back. */
    method UpdatePoint(p: Point, v: Vector, target: Point, dt: real) returns (p': Point, v': Vector)
      ensures Spring.State(p', v') == Spring.Advance(Spring.State(p, v), target, dt, k, damping)
    {
      var ax := -k * (p.x - target.x) - damping * v.dx;
      var ay := -k * (p.y - target.y) - damping * v.dy;
      v' := Vector(v.dx + ax * dt, v.dy + ay * dt);
      p' := Point(p.x + v'.dx * dt * 60.0 * 0.016, p.y + v'.dy * dt * 60.0 * 0.016);
    }

    /** bezierPoint: the Bernstein closed form of the curve at t. */
    function BezierPoint(t: real): (r: Point)
      reads this
      ensures r == Bezier.CurvePoint(P0, P1, P2, P3, t)
      ensures t == 0.0 ==> r == P0
      ensures t == 1.0 ==> r == P3
      ensures P0 == P1 == P2 == P3 ==> r == P0
    {
      Bezier.CurvePointBernstein(P0, P1, P2, P3, t);
      Bezier.CurveConstant(P0, t);
      var w := Bezier.Weights(t);
      Point(w.0 * P0.x + w.1 * P1.x + w.2 * P2.x + w.3 * P3.x,
            w.0 * P0.y + w.1 * P1.y + w.2 * P2.y + w.3 * P3.y)
    }

    /** bezierDerivative: the closed form of the curve's first derivative at t. */
    function BezierDerivative(t: real): (r: Vector)
      reads this
      ensures r == Bezier.CurveTangent(P0, P1, P2, P3, t)
      ensures t == 0.0 ==> r == Times(3.0, Diff(P1, P0))
      ensures t == 1.0 ==> r == Times(3.0, Diff(P3, P2))
    {
      Bezier.CasteljauTangent(P0.x, P1.x, P2.x, P3.x, t);
      Bezier.CasteljauTangent(P0.y, P1.y, P2.y, P3.y, t);
      var u := 1.0 - t;
      Vector(3.0 * u * u * (P1.x - P0.x) + 6.0 * u * t * (P2.x - P1.x) + 3.0 * t * t * (P3.x - P2.x),
             3.0 * u * u * (P1.y - P0.y) + 6.0 * u * t * (P2.y - P1.y) + 3.0 * t * t * (P3.y - P2.y))
    }
  }
}
