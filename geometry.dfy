/** Unity's `Vector2`, over the reals instead of single-precision floats. */
module Geometry {

  datatype Point = Point(x: real, y: real)

  /** `Vector2.normalized`: a floating-point square root Dafny cannot compute, so every
      operation that needs it takes it as a parameter and assumes nothing about it. */
  type Normalizer = Point -> Point

  function Add(a: Point, b: Point): Point {
    Point(a.x + b.x, a.y + b.y)
  }

  function Sub(a: Point, b: Point): Point {
    Point(a.x - b.x, a.y - b.y)
  }

  /** `v * k` for a vector and a scalar. */
  function Mul(p: Point, k: real): Point {
    Point(p.x * k, p.y * k)
  }

  /** `v / 2f`. */
  function Half(p: Point): Point {
    Point(p.x / 2.0, p.y / 2.0)
  }

  function Dot(a: Point, b: Point): real {
    a.x * b.x + a.y * b.y
  }

  /** `(a + b) / 2f`, the midpoint of the segment from `a` to `b`. */
  function Midpoint(a: Point, b: Point): (m: Point)
    ensures Sub(m, a) == Sub(b, m)
  {
    Half(Add(a, b))
  }
}
