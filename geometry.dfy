/** The lot geometries of data_processing/lot_engineering.py, with the measurements the
    geometry library would make on them taken as given. */
module Geometry {

  /** One polygon, reduced to its planar area (square metres, in the equal-area
      projection) and the angle in degrees of the first edge of its minimum rotated
      rectangle, as `np.degrees(np.arctan2(...))` yields it. */
  datatype Polygon = Polygon(area: real, edgeAngle: real)

  /** The lot geometry of one region: a Polygon, or a MultiPolygon of constituents. */
  datatype LotGeometry = Single(polygon: Polygon) | Multi(parts: seq<Polygon>)

  function Areas(ps: seq<Polygon>): (r: seq<real>)
    ensures |r| == |ps| && forall i :: 0 <= i < |ps| ==> r[i] == ps[i].area
  {
    seq(|ps|, i requires 0 <= i < |ps| => ps[i].area)
  }

  /** The constituent polygons: the parts of a MultiPolygon, in order, or the polygon
      itself. Only a MultiPolygon without parts has none. */
  function Constituents(g: LotGeometry): (r: seq<Polygon>)
    ensures g.Single? ==> r == [g.polygon]
    ensures g.Multi? ==> r == g.parts
    ensures |r| == 0 ==> g.Multi? && |g.parts| == 0
  {
    match g
    case Single(p) => [p]
    case Multi(ps) => ps
  }
}
