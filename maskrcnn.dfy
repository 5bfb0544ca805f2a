/** The placeholder roof detector (src/ml/models/maskrcnn.ts): one fixed
    10 x 12 pixel rectangle, whatever the image. */
module MaskRcnn {
  import opened Numeric
  import opened Coords
  import opened Engine

  const RoofRectangle: Polygon := [Pixel(0.0, 0.0), Pixel(10.0, 0.0), Pixel(10.0, 12.0), Pixel(0.0, 12.0)]

  /** `detectRoofPolygons`: exactly one polygon, the fixed rectangle; the image
      id plays no part. */
  function DetectRoofPolygons(imageId: string): (polys: seq<Polygon>)
    ensures |polys| == 1
    ensures polys[0] == [Pixel(0.0, 0.0), Pixel(10.0, 0.0), Pixel(10.0, 12.0), Pixel(0.0, 12.0)]
  {
    [RoofRectangle]
  }

  /** The output is the same for every image id. */
  lemma DetectorIgnoresImage(a: string, b: string)
    ensures DetectRoofPolygons(a) == DetectRoofPolygons(b)
  {
  }

  /** The closed rectangle, its four edges spelled out. */
  lemma RectangleEdges(e: EdgeMeasure)
    ensures CyclicSum(e, RoofRectangle)
         == EdgeTerm(e, Pixel(0.0, 0.0), Pixel(10.0, 0.0)) + EdgeTerm(e, Pixel(10.0, 0.0), Pixel(10.0, 12.0))
          + EdgeTerm(e, Pixel(10.0, 12.0), Pixel(0.0, 12.0)) + EdgeTerm(e, Pixel(0.0, 12.0), Pixel(0.0, 0.0))
  {
    var c := Closed(RoofRectangle);
    assert c == [Pixel(0.0, 0.0)] + c[1..];
    PathSumCons(e, Pixel(0.0, 0.0), c[1..]);
    assert c[1..] == [Pixel(10.0, 0.0)] + c[2..];
    PathSumCons(e, Pixel(10.0, 0.0), c[2..]);
    assert c[2..] == [Pixel(10.0, 12.0)] + c[3..];
    PathSumCons(e, Pixel(10.0, 12.0), c[3..]);
    assert c[3..] == [Pixel(0.0, 12.0)] + c[4..];
    PathSumCons(e, Pixel(0.0, 12.0), c[4..]);
  }

  /** The rectangle's shoelace area is 120 square pixels, i.e. 120 * r^2 m^2. */
  lemma RoofRectangleArea(resolutionM: real)
    ensures ShoelaceSum(RoofRectangle) == 240.0
    ensures AreaSqm(RoofRectangle, resolutionM) == 120.0 * resolutionM * resolutionM
  {
    RectangleEdges(CrossProduct);
  }

  /** Its cyclic perimeter is 44 pixels, i.e. 44 * r metres. */
  lemma RoofRectanglePerimeter(resolutionM: real, sqrt: real -> real)
    requires IsSqrt(sqrt)
    ensures PerimeterM(RoofRectangle, resolutionM, sqrt) == 44.0 * resolutionM
  {
    RectangleEdges(Length(sqrt));
    assert Square(10.0) == 100.0 && sqrt(Square(10.0)) == 10.0;
    assert Square(12.0) == 144.0 && sqrt(Square(12.0)) == 12.0;
  }
}
