/** Points, vectors and sizes of the drawing surface (CoreGraphics' CGPoint, CGVector and
    CGSize), with real coordinates in logical units, origin top-left, y growing downward. */
module Geometry {

  datatype Point = Point(x: real, y: real)

  datatype Vector = Vector(dx: real, dy: real)

  datatype Size = Size(width: real, height: real)

  /** CGPoint.zero */
  const Origin := Point(0.0, 0.0)

  const ZeroVector := Vector(0.0, 0.0)

  /** CGSize.zero */
  const ZeroSize := Size(0.0, 0.0)

  /** The vector from q to p. */
  function Diff(p: Point, q: Point): Vector {
    Vector(p.x - q.x, p.y - q.y)
  }

  /** p moved by v. */
  function Translate(p: Point, v: Vector): Point {
    Point(p.x + v.dx, p.y + v.dy)
  }

  function Plus(v: Vector, w: Vector): Vector {
    Vector(v.dx + w.dx, v.dy + w.dy)
  }

  function Times(c: real, v: Vector): Vector {
    Vector(c * v.dx, c * v.dy)
  }

  function Negate(v: Vector): Vector {
    Vector(-v.dx, -v.dy)
  }

  /** The point a point reflection through the centre c/2 sends p to: c - p. */
  function Reflect(c: Point, p: Point): Point {
    Point(c.x - p.x, c.y - p.y)
  }

  /** The far corner of a surface of size s, which is twice its centre. */
  function Corner(s: Size): Point {
    Point(s.width, s.height)
  }
}
