/** The coordinate spaces the pipeline keeps consistent: geographic degrees,
    Web-Mercator metres and image pixels, plus the spherical functions the
    model does not interpret. */
module Coords {

  /** A geographic point in degrees (`{ lat, lng }`). */
  datatype LatLng = LatLng(lat: real, lng: real)

  /** A Web-Mercator point in metres (`{ x, y }`). */
  datatype MercPoint = MercPoint(x: real, y: real)

  /** An axis-aligned box in Web-Mercator metres. */
  datatype Extent = Extent(minX: real, minY: real, maxX: real, maxY: real)

  /** A pixel pair `[x, y]`; rounded pixels are integral reals. */
  datatype Pixel = Pixel(x: real, y: real)

  /** A ring of pixel points, the last connecting back to the first
      (`Polygon` of src/ml/models/maskrcnn.ts). */
  type Polygon = seq<Pixel>

  /** The latitude/longitude range every validation in the core uses. */
  predicate InRange(p: LatLng)
  {
    -90.0 <= p.lat <= 90.0 && -180.0 <= p.lng <= 180.0
  }

  predicate Integral(r: real)
  {
    r.Floor as real == r
  }

  /** The transcendental functions of the core, left uninterpreted:
      `toMercator` is `lngLatToWebMercator` (radius 6378137),
      `fromMercator` is `webMercatorToLngLat`,
      `tileRow(lat)` is `(1 - ln(tan(lat rad) + 1/cos(lat rad)) / pi) / 2`,
      `cosDeg(lat)` is `cos(lat * pi / 180)`. */
  datatype Sphere = Sphere(
    toMercator: LatLng -> MercPoint,
    fromMercator: MercPoint -> LatLng,
    tileRow: real -> real,
    cosDeg: real -> real)
  {
    /** The facts assumed of them: projecting an unprojected Mercator point
        gives it back, and cos 0 = 1. */
    ghost predicate Valid()
    {
      && (forall m :: toMercator(fromMercator(m)) == m)
      && cosDeg(0.0) == 1.0
    }
  }
}
