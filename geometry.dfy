/** Points of the plane and the one geometric operation the path model needs:
    the implied on-curve point of a TrueType quadratic spline. */
module Geometry {

  /** A point of an outline. Coordinates are exact reals: the outlines this
      model speaks about use halves (1.5, 748.5) and their midpoints are exact. */
  datatype Point = Point(x: real, y: real)

  const Origin := Point(0.0, 0.0)

  /** The implied on-curve point between two consecutive off-curve points. */
  function Mid(a: Point, b: Point): (m: Point)
    ensures m.x - a.x == b.x - m.x && m.y - a.y == b.y - m.y
  {
    Point(0.5 * (a.x + b.x), 0.5 * (a.y + b.y))
  }
}
