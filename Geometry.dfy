/** Screen rectangles as `getBoundingClientRect()` reports them, and the inclusive hit test the games use. */
module Geometry {

  datatype Point = Point(x: real, y: real)

  datatype Rect = Rect(left: real, top: real, right: real, bottom: real) {
    function Width(): real { right - left }
    function Height(): real { bottom - top }
  }

  /** A point is over a rectangle when it lies within it, edges included. */
  predicate Contains(r: Rect, p: Point) {
    r.left <= p.x <= r.right && r.top <= p.y <= r.bottom
  }

  function Abs(x: real): (r: real)
    ensures r >= 0.0 && (r == x || r == -x)
  {
    if x < 0.0 then -x else x
  }

  function Min(a: real, b: real): (r: real)
    ensures r <= a && r <= b && (r == a || r == b)
  {
    if a <= b then a else b
  }

  /** Squared distance; `Math.sqrt(d2) > radius` holds exactly when `d2 > radius * radius`. */
  function DistanceSquared(a: Point, b: Point): (d: real)
    ensures d >= 0.0
  {
    (a.x - b.x) * (a.x - b.x) + (a.y - b.y) * (a.y - b.y)
  }
}
