/** Projection helpers of the overlay: placing a geographic point on a
    slippy-map tile, a metre-sized rectangle around a centre, and the two
    linear maps between Web-Mercator metres and the pixels of an exported
    image whose Y axis points down. */
module Geo {
  import opened Numeric
  import opened Coords

  /** Metres per degree of latitude. */
  const MetersPerDegree: real := 111320.0

  /** `metersToDegLat`: degrees of latitude spanned by `meters`. */
  function MetersToDegLat(meters: real): (d: real)
    ensures d * MetersPerDegree == meters
  {
    meters / MetersPerDegree
  }

  /** `metersToDegLng`: degrees of longitude spanned by `meters` at
      latitude `lat`; the cosine shrinks the degree toward the poles. */
  function MetersToDegLng(meters: real, lat: real, sphere: Sphere): (d: real)
    requires sphere.cosDeg(lat) != 0.0
    ensures d * (MetersPerDegree * sphere.cosDeg(lat)) == meters
    ensures sphere.cosDeg(lat) == 1.0 ==> d == MetersToDegLat(meters)
  {
    meters / (MetersPerDegree * sphere.cosDeg(lat))
  }

  /** On the equator a metre spans the same angle in both directions. */
  lemma EquatorDegreesAgree(meters: real, sphere: Sphere)
    requires sphere.Valid()
    ensures MetersToDegLng(meters, 0.0, sphere) == MetersToDegLat(meters)
  {
  }

  /** A fractional slippy-tile position at some zoom. */
  datatype TilePoint = TilePoint(x: real, y: real)

  /** `lngLatToTileFloat`: the column grows linearly from 0 at longitude
      -180 to `2 ** z` at +180; the row is the uninterpreted Mercator row. */
  function LngLatToTileFloat(lng: real, lat: real, z: int, sphere: Sphere): (t: TilePoint)
    ensures t.y == sphere.tileRow(lat) * Pow2(z)
  {
    TilePoint((lng + 180.0) / 360.0 * Pow2(z), sphere.tileRow(lat) * Pow2(z))
  }

  lemma FractionOfPositive(f: real, n: real)
    requires 0.0 <= f <= 1.0 && n > 0.0
    ensures 0.0 <= f * n <= n
  {
    assert f * n <= 1.0 * n;
  }

  /** Every longitude in range lands in one of the `2 ** z` tile columns,
      the antimeridian at the two edges. */
  lemma TileColumnInRange(lng: real, lat: real, z: int, sphere: Sphere)
    requires -180.0 <= lng <= 180.0
    ensures 0.0 <= LngLatToTileFloat(lng, lat, z, sphere).x <= Pow2(z)
    ensures lng == -180.0 ==> LngLatToTileFloat(lng, lat, z, sphere).x == 0.0
    ensures lng == 180.0 ==> LngLatToTileFloat(lng, lat, z, sphere).x == Pow2(z)
  {
    var f := (lng + 180.0) / 360.0;
    assert 0.0 <= f <= 1.0;
    assert LngLatToTileFloat(lng, lat, z, sphere).x == f * Pow2(z);
    FractionOfPositive(f, Pow2(z));
  }

  /** One more zoom level doubles the tile position. */
  lemma TileFloatDoubles(lng: real, lat: real, z: int, sphere: Sphere)
    ensures LngLatToTileFloat(lng, lat, z + 1, sphere).x == 2.0 * LngLatToTileFloat(lng, lat, z, sphere).x
    ensures LngLatToTileFloat(lng, lat, z + 1, sphere).y == 2.0 * LngLatToTileFloat(lng, lat, z, sphere).y
  {
    Pow2Succ(z);
  }

  /** One axis of a tile pixel: the offset from the tile's corner in tile
      units, times the tile size, to the nearest whole pixel. */
  function TilePixel(tileFloat: real, tileIndex: real, tileSize: real): (px: real)
    ensures Integral(px)
    ensures Abs(px - (tileFloat - tileIndex) * tileSize) <= 0.5
  {
    Round((tileFloat - tileIndex) * tileSize) as real
  }

  /** `lngLatToPixelInTile`: the pixel of the point inside tile
      (tileX, tileY), to the nearest whole pixel on each axis; the column
      depends on the longitude only and the row on the latitude only. */
  function LngLatToPixelInTile(lng: real, lat: real, z: int, tileX: real, tileY: real, tileSize: real, sphere: Sphere): (p: Pixel)
    ensures var t := LngLatToTileFloat(lng, lat, z, sphere);
      p == Pixel(TilePixel(t.x, tileX, tileSize), TilePixel(t.y, tileY, tileSize))
    ensures Integral(p.x) && Integral(p.y)
  {
    var t := LngLatToTileFloat(lng, lat, z, sphere);
    Pixel(TilePixel(t.x, tileX, tileSize), TilePixel(t.y, tileY, tileSize))
  }

  /** The corners of the box of half-sides dLat, dLng around `center`. */
  function RectCorners(center: LatLng, dLat: real, dLng: real): (cs: seq<LatLng>)
    ensures |cs| == 4
    // south-west, south-east, north-east, north-west
    ensures cs[0].lat == cs[1].lat == center.lat - dLat && cs[2].lat == cs[3].lat == center.lat + dLat
    ensures cs[0].lng == cs[3].lng == center.lng - dLng && cs[1].lng == cs[2].lng == center.lng + dLng
  {
    [ LatLng(center.lat - dLat, center.lng - dLng),
      LatLng(center.lat - dLat, center.lng + dLng),
      LatLng(center.lat + dLat, center.lng + dLng),
      LatLng(center.lat + dLat, center.lng - dLng) ]
  }

  /** Opposite corners average to the centre. */
  lemma RectCornersCentred(center: LatLng, dLat: real, dLng: real)
    ensures var cs := RectCorners(center, dLat, dLng);
      && (cs[0].lat + cs[2].lat) / 2.0 == center.lat && (cs[0].lng + cs[2].lng) / 2.0 == center.lng
      && (cs[1].lat + cs[3].lat) / 2.0 == center.lat && (cs[1].lng + cs[3].lng) / 2.0 == center.lng
  {
  }

  /** `geoRectPixels`: the four corners of the square of half-side
      `halfSizeMeters` around the centre, as tile pixels. */
  function GeoRectPixels(centerLat: real, centerLng: real, zoom: int, tileX: real, tileY: real, tileSize: real, halfSizeMeters: real, sphere: Sphere): (r: seq<Pixel>)
    requires sphere.cosDeg(centerLat) != 0.0
    ensures |r| == 4
    ensures var cs := RectCorners(LatLng(centerLat, centerLng), MetersToDegLat(halfSizeMeters), MetersToDegLng(halfSizeMeters, centerLat, sphere));
      forall i :: 0 <= i < 4 ==> r[i] == LngLatToPixelInTile(cs[i].lng, cs[i].lat, zoom, tileX, tileY, tileSize, sphere)
  {
    var cs := RectCorners(LatLng(centerLat, centerLng), MetersToDegLat(halfSizeMeters), MetersToDegLng(halfSizeMeters, centerLat, sphere));
    seq(4, i requires 0 <= i < 4 => LngLatToPixelInTile(cs[i].lng, cs[i].lat, zoom, tileX, tileY, tileSize, sphere))
  }

  /** The pixel rectangle stays axis-aligned: the two southern corners share
      a pixel row, the two northern ones another, and likewise for columns. */
  lemma GeoRectAxisAligned(centerLat: real, centerLng: real, zoom: int, tileX: real, tileY: real, tileSize: real, halfSizeMeters: real, sphere: Sphere)
    requires sphere.cosDeg(centerLat) != 0.0
    ensures var r := GeoRectPixels(centerLat, centerLng, zoom, tileX, tileY, tileSize, halfSizeMeters, sphere);
      r[0].y == r[1].y && r[2].y == r[3].y && r[0].x == r[3].x && r[1].x == r[2].x
  {
    var cs := RectCorners(LatLng(centerLat, centerLng), MetersToDegLat(halfSizeMeters), MetersToDegLng(halfSizeMeters, centerLat, sphere));
    var r := GeoRectPixels(centerLat, centerLng, zoom, tileX, tileY, tileSize, halfSizeMeters, sphere);
    assert LngLatToTileFloat(cs[0].lng, cs[0].lat, zoom, sphere).y == LngLatToTileFloat(cs[1].lng, cs[1].lat, zoom, sphere).y;
    assert LngLatToTileFloat(cs[2].lng, cs[2].lat, zoom, sphere).y == LngLatToTileFloat(cs[3].lng, cs[3].lat, zoom, sphere).y;
    assert LngLatToTileFloat(cs[0].lng, cs[0].lat, zoom, sphere).x == LngLatToTileFloat(cs[3].lng, cs[3].lat, zoom, sphere).x;
    assert LngLatToTileFloat(cs[1].lng, cs[1].lat, zoom, sphere).x == LngLatToTileFloat(cs[2].lng, cs[2].lat, zoom, sphere).x;
    assert r[0] == LngLatToPixelInTile(cs[0].lng, cs[0].lat, zoom, tileX, tileY, tileSize, sphere);
    assert r[1] == LngLatToPixelInTile(cs[1].lng, cs[1].lat, zoom, tileX, tileY, tileSize, sphere);
    assert r[2] == LngLatToPixelInTile(cs[2].lng, cs[2].lat, zoom, tileX, tileY, tileSize, sphere);
    assert r[3] == LngLatToPixelInTile(cs[3].lng, cs[3].lat, zoom, tileX, tileY, tileSize, sphere);
  }

  /** `polygonLatLngToTilePixels`: every point mapped to its tile pixel. */
  function PolygonLatLngToTilePixels(points: seq<LatLng>, zoom: int, tileX: real, tileY: real, tileSize: real, sphere: Sphere): (r: seq<Pixel>)
    ensures |r| == |points|
    ensures forall i :: 0 <= i < |points| ==> r[i] == LngLatToPixelInTile(points[i].lng, points[i].lat, zoom, tileX, tileY, tileSize, sphere)
  {
    seq(|points|, i requires 0 <= i < |points| => LngLatToPixelInTile(points[i].lng, points[i].lat, zoom, tileX, tileY, tileSize, sphere))
  }

  // ---------------------------------------------------------------------------
  // Extent pixels

  /** Width and height of the extent are the denominators of both maps. */
  predicate NonDegenerate(extent: Extent)
  {
    extent.maxX - extent.minX != 0.0 && extent.maxY - extent.minY != 0.0
  }

  /** `d / span * size`: offset `d` into a span of `span` as a fraction of
      `size`. */
  function Scale(d: real, span: real, size: real): real
    requires span != 0.0
  {
    d / span * size
  }

  /** One axis of an extent pixel: offset `d` metres into a span of `span`
      metres, as a whole pixel of a `size`-pixel image. */
  function Place(d: real, span: real, size: real): (px: real)
    requires span != 0.0
    ensures Integral(px)
    ensures Abs(px - Scale(d, span, size)) <= 0.5
  {
    Round(Scale(d, span, size)) as real
  }

  /** One axis of the inverse: pixel `px` as metres into the span. */
  function Unplace(px: real, span: real, size: real): (d: real)
    requires size != 0.0
    ensures px == 0.0 ==> d == 0.0
  {
    Scale(px, size, span)
  }

  /** A Mercator point as a pixel of a `size`-pixel image of `extent`:
      X measured from the west edge, Y from the north edge. */
  function MercToExtentPixel(m: MercPoint, extent: Extent, size: real): (p: Pixel)
    requires NonDegenerate(extent)
    ensures Integral(p.x) && Integral(p.y)
    ensures p.x == Place(m.x - extent.minX, extent.maxX - extent.minX, size)
    ensures p.y == Place(extent.maxY - m.y, extent.maxY - extent.minY, size)
  {
    Pixel(Place(m.x - extent.minX, extent.maxX - extent.minX, size), Place(extent.maxY - m.y, extent.maxY - extent.minY, size))
  }

  /** `polygonLatLngToExtentPixels`: every point projected and placed. */
  function PolygonLatLngToExtentPixels(points: seq<LatLng>, extent: Extent, size: real, sphere: Sphere): (r: seq<Pixel>)
    requires NonDegenerate(extent)
    ensures |r| == |points|
    ensures forall i :: 0 <= i < |points| ==> r[i] == MercToExtentPixel(sphere.toMercator(points[i]), extent, size)
  {
    seq(|points|, i requires 0 <= i < |points| => MercToExtentPixel(sphere.toMercator(points[i]), extent, size))
  }

  /** A pixel of the image back in Mercator metres: X from the west edge,
      Y down from the north edge. */
  function ExtentPixelToMerc(p: Pixel, extent: Extent, size: real): (m: MercPoint)
    requires size != 0.0
    ensures m.x - extent.minX == Unplace(p.x, extent.maxX - extent.minX, size)
    ensures extent.maxY - m.y == Unplace(p.y, extent.maxY - extent.minY, size)
  {
    MercPoint(extent.minX + Unplace(p.x, extent.maxX - extent.minX, size), extent.maxY - Unplace(p.y, extent.maxY - extent.minY, size))
  }

  /** `extentPixelsToPolygonLatLng`: every pixel unplaced and unprojected. */
  function ExtentPixelsToPolygonLatLng(pixels: seq<Pixel>, extent: Extent, size: real, sphere: Sphere): (r: seq<LatLng>)
    requires size != 0.0
    ensures |r| == |pixels|
    ensures forall i :: 0 <= i < |pixels| ==> r[i] == sphere.fromMercator(ExtentPixelToMerc(pixels[i], extent, size))
  {
    seq(|pixels|, i requires 0 <= i < |pixels| => sphere.fromMercator(ExtentPixelToMerc(pixels[i], extent, size)))
  }

  /** The image's top-left pixel is the extent's (minX, maxY) corner. */
  lemma OriginPixelIsTopLeft(extent: Extent, size: real, sphere: Sphere)
    requires size != 0.0
    ensures ExtentPixelsToPolygonLatLng([Pixel(0.0, 0.0)], extent, size, sphere)
         == [sphere.fromMercator(MercPoint(extent.minX, extent.maxY))]
  {
    assert ExtentPixelToMerc(Pixel(0.0, 0.0), extent, size) == MercPoint(extent.minX, extent.maxY);
  }

  /** The extent's top-left corner lands on pixel (0, 0) ... */
  lemma TopLeftCornerIsOrigin(extent: Extent, size: real)
    requires NonDegenerate(extent)
    ensures MercToExtentPixel(MercPoint(extent.minX, extent.maxY), extent, size) == Pixel(0.0, 0.0)
  {
    assert Scale(0.0, extent.maxX - extent.minX, size) == 0.0;
    assert Scale(0.0, extent.maxY - extent.minY, size) == 0.0;
    assert Round(0.0) == 0;
  }

  lemma ScaleWhole(span: real, size: real)
    requires span != 0.0
    ensures Scale(span, span, size) == size
  {
    var q := span / span;
    assert q == 1.0;
  }

  /** ... and its bottom-right corner on pixel (size, size). */
  lemma BottomRightCornerIsFar(extent: Extent, size: real)
    requires NonDegenerate(extent)
    requires Integral(size)
    ensures MercToExtentPixel(MercPoint(extent.maxX, extent.minY), extent, size) == Pixel(size, size)
  {
    ScaleWhole(extent.maxX - extent.minX, size);
    ScaleWhole(extent.maxY - extent.minY, size);
    RoundOfInteger(size.Floor);
  }

  lemma ScaleMonotone(a: real, b: real, span: real, size: real)
    requires a <= b && span > 0.0 && size >= 0.0
    ensures Scale(a, span, size) <= Scale(b, span, size)
  {
    var qa := a / span;
    var qb := b / span;
    assert qa * span == a && qb * span == b;
    assert qa <= qb;
    assert (qb - qa) * size >= 0.0;
  }

  lemma PlaceMonotone(d1: real, d2: real, span: real, size: real)
    requires d1 <= d2 && span > 0.0 && size >= 0.0
    ensures Place(d1, span, size) <= Place(d2, span, size)
  {
    ScaleMonotone(d1, d2, span, size);
    RoundMonotone(Scale(d1, span, size), Scale(d2, span, size));
  }

  /** X grows eastward on an upright extent ... */
  lemma ExtentXGrowsEast(m1: MercPoint, m2: MercPoint, extent: Extent, size: real)
    requires extent.maxX > extent.minX && extent.maxY > extent.minY && size >= 0.0
    requires m1.x <= m2.x
    ensures MercToExtentPixel(m1, extent, size).x <= MercToExtentPixel(m2, extent, size).x
  {
    PlaceMonotone(m1.x - extent.minX, m2.x - extent.minX, extent.maxX - extent.minX, size);
  }

  /** ... and Y is inverted: a point further north is never lower down. */
  lemma ExtentYGrowsSouth(m1: MercPoint, m2: MercPoint, extent: Extent, size: real)
    requires extent.maxX > extent.minX && extent.maxY > extent.minY && size >= 0.0
    requires m1.y <= m2.y
    ensures MercToExtentPixel(m2, extent, size).y <= MercToExtentPixel(m1, extent, size).y
  {
    PlaceMonotone(extent.maxY - m2.y, extent.maxY - m1.y, extent.maxY - extent.minY, size);
  }

  /** Scaling into a span and back out of it is the identity. */
  lemma ScaleBack(f: real, span: real, size: real)
    requires span != 0.0 && size != 0.0
    ensures Scale(Scale(f, size, span), span, size) == f
  {
    var a := f / size;
    assert a * size == f;
    var b := a * span;
    assert b / span == a;
  }

  /** Placing an unplaced whole pixel gives it back. */
  lemma PlaceUnplace(px: real, span: real, size: real)
    requires span != 0.0 && size != 0.0 && Integral(px)
    ensures Place(Unplace(px, span, size), span, size) == px
  {
    ScaleBack(px, span, size);
    RoundOfInteger(px.Floor);
  }

  /** Placing the unplaced Mercator point of a whole pixel gives that pixel. */
  lemma PixelRoundTrip(p: Pixel, extent: Extent, size: real)
    requires NonDegenerate(extent) && size != 0.0
    requires Integral(p.x) && Integral(p.y)
    ensures MercToExtentPixel(ExtentPixelToMerc(p, extent, size), extent, size) == p
  {
    PlaceUnplace(p.x, extent.maxX - extent.minX, size);
    PlaceUnplace(p.y, extent.maxY - extent.minY, size);
  }

  /** The two extent maps are inverse on whole pixels: projecting the
      polygon unprojected from integer pixels returns those pixels, given
      only that projecting an unprojected Mercator point returns it. */
  lemma {:induction false} ExtentRoundTrip(pixels: seq<Pixel>, extent: Extent, size: real, sphere: Sphere)
    requires sphere.Valid()
    requires NonDegenerate(extent) && size != 0.0
    requires forall i :: 0 <= i < |pixels| ==> Integral(pixels[i].x) && Integral(pixels[i].y)
    ensures PolygonLatLngToExtentPixels(ExtentPixelsToPolygonLatLng(pixels, extent, size, sphere), extent, size, sphere) == pixels
  {
    var back := PolygonLatLngToExtentPixels(ExtentPixelsToPolygonLatLng(pixels, extent, size, sphere), extent, size, sphere);
    forall i | 0 <= i < |pixels|
      ensures back[i] == pixels[i]
    {
      var m := ExtentPixelToMerc(pixels[i], extent, size);
      assert sphere.toMercator(sphere.fromMercator(m)) == m;
      PixelRoundTrip(pixels[i], extent, size);
    }
  }
}
