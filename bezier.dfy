/** The cubic Bezier evaluator: reference constructions the closed forms of
    BezierModel.bezierPoint and BezierModel.bezierDerivative are proved against,
    and the tangent normalisation. */
module Bezier {
  import opened Geometry

  /** The number at parameter t between a and b. */
  function Mix(a: real, b: real, t: real): real {
    a + t * (b - a)
  }

  /** The point at parameter t on the segment from p to q (t is not clamped). */
  function Lerp(p: Point, q: Point, t: real): Point {
    Point(Mix(p.x, q.x, t), Mix(p.y, q.y, t))
  }

  /** The three levels of de Casteljau's construction for the cubic p0 p1 p2 p3 at t,
      ending in the segment d -> e whose point at t is on the curve. */
  datatype Construction = Construction(a: Point, b: Point, c: Point, d: Point, e: Point)

  function Casteljau(p0: Point, p1: Point, p2: Point, p3: Point, t: real): Construction {
    var a := Lerp(p0, p1, t);
    var b := Lerp(p1, p2, t);
    var c := Lerp(p2, p3, t);
    Construction(a, b, c, Lerp(a, b, t), Lerp(b, c, t))
  }

  /** The curve's point at t by repeated interpolation: an independent reference for the
      Bernstein closed form. */
  function CurvePoint(p0: Point, p1: Point, p2: Point, p3: Point, t: real): Point {
    var k := Casteljau(p0, p1, p2, p3, t);
    Lerp(k.d, k.e, t)
  }

  /** The curve's tangent at t: three times the last segment of the construction. */
  function CurveTangent(p0: Point, p1: Point, p2: Point, p3: Point, t: real): Vector {
    var k := Casteljau(p0, p1, p2, p3, t);
    Times(3.0, Diff(k.e, k.d))
  }

  /** The four cubic Bernstein weights at t, in the order they multiply P0..P3. */
  function Weights(t: real): (real, real, real, real) {
    var u := 1.0 - t;
    (u * u * u, 3.0 * u * u * t, 3.0 * u * t * t, t * t * t)
  }

  /** Interpolation with u = 1 - t is the affine combination u·a + t·b. */
  lemma MixAffine(a: real, b: real, t: real, u: real)
    requires u == 1.0 - t
    ensures Mix(a, b, t) == u * a + t * b
  {
  }

  lemma QuadraticStep(u: real, t: real, a: real, b: real, c: real)
    ensures u * (u * a + t * b) + t * (u * b + t * c) == u * u * a + 2.0 * u * t * b + t * t * c
  {
  }

  lemma CubicExpand(u: real, t: real, a0: real, a1: real, a2: real, a3: real)
    ensures u * u * (u * a0 + t * a1) + 2.0 * u * t * (u * a1 + t * a2) + t * t * (u * a2 + t * a3)
         == u * u * u * a0 + 3.0 * u * u * t * a1 + 3.0 * u * t * t * a2 + t * t * t * a3
  {
  }

  /** The three levels of the construction, each an affine combination u·x + t·y of the level
      below, end in the cubic Bernstein combination. */
  lemma CubicStep(u: real, t: real, a0: real, a1: real, a2: real, a3: real,
                  a: real, b: real, c: real, d: real, e: real)
    requires a == u * a0 + t * a1 && b == u * a1 + t * a2 && c == u * a2 + t * a3
    requires d == u * a + t * b && e == u * b + t * c
    ensures u * d + t * e
         == u * u * u * a0 + 3.0 * u * u * t * a1 + 3.0 * u * t * t * a2 + t * t * t * a3
  {
    calc {
      u * d + t * e;
      u * (u * a + t * b) + t * (u * b + t * c);
      { QuadraticStep(u, t, a, b, c); }
      u * u * a + 2.0 * u * t * b + t * t * c;
      { Distribute3(u * u, 2.0 * u * t, t * t, a, b, c, u * a0 + t * a1, u * a1 + t * a2, u * a2 + t * a3); }
      u * u * (u * a0 + t * a1) + 2.0 * u * t * (u * a1 + t * a2) + t * t * (u * a2 + t * a3);
      { CubicExpand(u, t, a0, a1, a2, a3); }
      u * u * u * a0 + 3.0 * u * u * t * a1 + 3.0 * u * t * t * a2 + t * t * t * a3;
    }
  }

  lemma TripleQuadratic(u: real, t: real, x: real, y: real, z: real)
    ensures 3.0 * (u * u * x + 2.0 * u * t * y + t * t * z)
         == 3.0 * u * u * x + 6.0 * u * t * y + 3.0 * t * t * z
  {
  }

  /** Three times the difference of the two second-level points is the quadratic Bernstein
      combination of the control differences. */
  lemma TangentStep(u: real, t: real, a0: real, a1: real, a2: real, a3: real,
                    a: real, b: real, c: real, d: real, e: real)
    requires a == u * a0 + t * a1 && b == u * a1 + t * a2 && c == u * a2 + t * a3
    requires d == u * a + t * b && e == u * b + t * c
    ensures 3.0 * (e - d)
         == 3.0 * u * u * (a1 - a0) + 6.0 * u * t * (a2 - a1) + 3.0 * t * t * (a3 - a2)
  {
    var x, y, z := a1 - a0, a2 - a1, a3 - a2;
    assert b - a == u * x + t * y;
    assert c - b == u * y + t * z;
    calc {
      3.0 * (e - d);
      3.0 * (u * (b - a) + t * (c - b));
      { Distribute3(u, t, 0.0, b - a, c - b, 0.0, u * x + t * y, u * y + t * z, 0.0); }
      3.0 * (u * (u * x + t * y) + t * (u * y + t * z));
      { QuadraticStep(u, t, x, y, z); }
      3.0 * (u * u * x + 2.0 * u * t * y + t * t * z);
      { TripleQuadratic(u, t, x, y, z); }
      3.0 * u * u * x + 6.0 * u * t * y + 3.0 * t * t * z;
    }
  }

  /** One coordinate of de Casteljau's construction is the Bernstein combination of that
      coordinate of the control points. */
  lemma CasteljauIsBernstein(a0: real, a1: real, a2: real, a3: real, t: real)
    ensures var u := 1.0 - t;
            Mix(Mix(Mix(a0, a1, t), Mix(a1, a2, t), t), Mix(Mix(a1, a2, t), Mix(a2, a3, t), t), t)
            == u * u * u * a0 + 3.0 * u * u * t * a1 + 3.0 * u * t * t * a2 + t * t * t * a3
  {
    var u := 1.0 - t;
    var a, b, c := Mix(a0, a1, t), Mix(a1, a2, t), Mix(a2, a3, t);
    var d, e := Mix(a, b, t), Mix(b, c, t);
    MixAffine(a0, a1, t, u);
    MixAffine(a1, a2, t, u);
    MixAffine(a2, a3, t, u);
    MixAffine(a, b, t, u);
    MixAffine(b, c, t, u);
    MixAffine(d, e, t, u);
    CubicStep(u, t, a0, a1, a2, a3, a, b, c, d, e);
  }

  /** One coordinate of the construction's last segment, tripled, is the quadratic Bernstein
      form of the curve's derivative. */
  lemma CasteljauTangent(a0: real, a1: real, a2: real, a3: real, t: real)
    ensures var u := 1.0 - t;
            3.0 * (Mix(Mix(a1, a2, t), Mix(a2, a3, t), t) - Mix(Mix(a0, a1, t), Mix(a1, a2, t), t))
            == 3.0 * u * u * (a1 - a0) + 6.0 * u * t * (a2 - a1) + 3.0 * t * t * (a3 - a2)
  {
    var u := 1.0 - t;
    var a, b, c := Mix(a0, a1, t), Mix(a1, a2, t), Mix(a2, a3, t);
    var d, e := Mix(a, b, t), Mix(b, c, t);
    MixAffine(a0, a1, t, u);
    MixAffine(a1, a2, t, u);
    MixAffine(a2, a3, t, u);
    MixAffine(a, b, t, u);
    MixAffine(b, c, t, u);
    TangentStep(u, t, a0, a1, a2, a3, a, b, c, d, e);
  }

  lemma Distribute3(x: real, y: real, z: real, a: real, b: real, c: real, a': real, b': real, c': real)
    requires a == a' && b == b' && c == c'
    ensures x * a + y * b + z * c == x * a' + y * b' + z * c'
  {
  }

  /** The curve's point is the Bernstein combination of the control points. */
  lemma CurvePointBernstein(p0: Point, p1: Point, p2: Point, p3: Point, t: real)
    ensures var w := Weights(t);
            CurvePoint(p0, p1, p2, p3, t)
            == Point(w.0 * p0.x + w.1 * p1.x + w.2 * p2.x + w.3 * p3.x,
                     w.0 * p0.y + w.1 * p1.y + w.2 * p2.y + w.3 * p3.y)
  {
    CasteljauIsBernstein(p0.x, p1.x, p2.x, p3.x, t);
    CasteljauIsBernstein(p0.y, p1.y, p2.y, p3.y, t);
  }

  /** The Bernstein weights partition unity, at every t (not only in [0, 1]). */
  lemma WeightsSumToOne(t: real)
    ensures var w := Weights(t); w.0 + w.1 + w.2 + w.3 == 1.0
  {
    var u := 1.0 - t;
    calc {
      u * u * u + 3.0 * u * u * t + 3.0 * u * t * t + t * t * t;
      (u + t) * (u + t) * (u + t);
      1.0;
    }
  }

  /** Coinciding control points give a constant curve. */
  lemma CurveConstant(p: Point, t: real)
    ensures CurvePoint(p, p, p, p, t) == p
  {
    CasteljauIsBernstein(p.x, p.x, p.x, p.x, t);
    CasteljauIsBernstein(p.y, p.y, p.y, p.y, t);
    WeightsSumToOne(t);
    var w := Weights(t);
    assert w.0 * p.x + w.1 * p.x + w.2 * p.x + w.3 * p.x == (w.0 + w.1 + w.2 + w.3) * p.x;
    assert w.0 * p.y + w.1 * p.y + w.2 * p.y + w.3 * p.y == (w.0 + w.1 + w.2 + w.3) * p.y;
  }

  /** A curve drawn through the same control points in reverse order is the same curve
      traversed backwards. */
  lemma CurveReversed(p0: Point, p1: Point, p2: Point, p3: Point, t: real)
    ensures CurvePoint(p3, p2, p1, p0, 1.0 - t) == CurvePoint(p0, p1, p2, p3, t)
  {
  }

  /** Reflecting every control point through a centre reflects the whole curve. */
  lemma CurveReflected(c: Point, p0: Point, p1: Point, p2: Point, p3: Point, t: real)
    ensures CurvePoint(Reflect(c, p0), Reflect(c, p1), Reflect(c, p2), Reflect(c, p3), t)
         == Reflect(c, CurvePoint(p0, p1, p2, p3, t))
  {
    var q0, q1, q2, q3 := Reflect(c, p0), Reflect(c, p1), Reflect(c, p2), Reflect(c, p3);
    var k, m := Casteljau(p0, p1, p2, p3, t), Casteljau(q0, q1, q2, q3, t);
    LerpReflected(c, p0, p1, t);
    LerpReflected(c, p1, p2, t);
    LerpReflected(c, p2, p3, t);
    LerpReflected(c, k.a, k.b, t);
    LerpReflected(c, k.b, k.c, t);
    LerpReflected(c, k.d, k.e, t);
  }

  lemma LerpReflected(c: Point, p: Point, q: Point, t: real)
    ensures Lerp(Reflect(c, p), Reflect(c, q), t) == Reflect(c, Lerp(p, q, t))
  {
  }

  /** BezierModel.normalized: v scaled by 1/|v|, or the zero vector when |v| is 0.
      Dafny's reals have no square root, so the magnitude mag = sqrt(dx^2 + dy^2) that the
      Swift code computes with `sqrt` is passed in, pinned down by the requires. */
  function Normalized(v: Vector, mag: real): (r: Vector)
    requires 0.0 <= mag && mag * mag == v.dx * v.dx + v.dy * v.dy
    ensures v == ZeroVector ==> r == ZeroVector
    ensures mag != 0.0 ==> Times(mag, r) == v
  {
    PositiveSquare(mag);
    if mag == 0.0 then ZeroVector else Vector(v.dx / mag, v.dy / mag)
  }

  /** A nonzero vector normalises to unit length. */
  lemma NormalizedUnitLength(v: Vector, mag: real)
    requires 0.0 < mag && mag * mag == v.dx * v.dx + v.dy * v.dy
    ensures var r := Normalized(v, mag); r.dx * r.dx + r.dy * r.dy == 1.0
  {
    var r := Normalized(v, mag);
    assert r.dx * mag == v.dx && r.dy * mag == v.dy;
    calc {
      (r.dx * r.dx + r.dy * r.dy) * (mag * mag);
      (r.dx * mag) * (r.dx * mag) + (r.dy * mag) * (r.dy * mag);
      v.dx * v.dx + v.dy * v.dy;
      mag * mag;
    }
  }

  lemma PositiveSquare(m: real)
    ensures 0.0 < m ==> 0.0 < m * m
  {
    if 0.0 < m {
      PositiveProduct(m, m);
    }
  }

  lemma PositiveProduct(x: real, y: real)
    requires 0.0 < x && 0.0 < y
    ensures 0.0 < x * y
  {
  }
}
