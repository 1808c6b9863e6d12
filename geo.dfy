/**
 * Coordinates shared by every proximity filter. Latitudes and longitudes are
 * decimal degrees; `real` stands in for float64.
 */
module Geo {

  datatype Point = Point(lat: real, lng: real)

  /** A search area: every point whose distance from `center` is at most `radius` miles. */
  datatype Circle = Circle(center: Point, radius: real)

  /**
   * The great-circle distance in miles, called as `dist(center, record)`.
   * It is a parameter everywhere, so nothing proved here depends on the
   * Haversine arithmetic.
   */
  type Distance = (Point, Point) -> real
}
