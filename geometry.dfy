/** Planar points and polygons as the shadow engine hands them to the polygon
    library, and that library's interface. The library itself (intersection,
    union, difference, area) is a parameter: nothing here depends on how it
    computes. */
module Geometry {
  import opened Numerics

  /** A vertex. Coordinates are floats because one version of the shadow
      construction can produce infinite or NaN offsets. */
  datatype Point = Point(x: Float, y: Float) {
    predicate IsFinite() { x.Finite? && y.Finite? }
  }

  /** A vertex with finite coordinates. */
  function P(x: real, y: real): (p: Point)
    ensures p.IsFinite() && p.x.val == x && p.y.val == y
  {
    Point(Finite(x), Finite(y))
  }

  /** `p` moved by `(dx, dy)` in floating-point arithmetic. */
  function Translate(p: Point, dx: Float, dy: Float): Point {
    Point(FAdd(p.x, dx), FAdd(p.y, dy))
  }

  /** The rectangle [0, w] x [0, h], counter-clockwise from the origin. */
  function Rectangle(w: real, h: real): (ring: seq<Point>)
    ensures |ring| == 4
    ensures forall k :: 0 <= k < 4 ==>
              ring[k].IsFinite() && ring[k].x.val in {0.0, w} && ring[k].y.val in {0.0, h}
  {
    [P(0.0, 0.0), P(w, 0.0), P(w, h), P(0.0, h)]
  }

  /** What a polygon operation returns: nothing, one polygon (its outer
      ring), or anything else that is not empty (several polygons, a line,
      a point). */
  datatype Geometry =
    | Empty
    | Polygon(exterior: seq<Point>)
    | NonPolygon(parts: seq<seq<Point>>)

  /** The polygon library the engine is written against (shapely in the
      source): `intersection`, `unary_union`, `difference` and `area`. */
  datatype PolygonOps = PolygonOps(
    intersection: (seq<Point>, seq<Point>) -> Geometry,
    unaryUnion: seq<seq<Point>> -> Geometry,
    difference: (seq<Point>, Geometry) -> Geometry,
    area: Geometry -> real)
}
