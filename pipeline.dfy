/** The analysis pipeline (src/ml/pipeline.ts): imagery and lidar stubs for
    the address, the detector on the image id, then the measurement engine
    at the imagery's resolution with no options. */
module Pipeline {
  import opened Numeric
  import opened Coords
  import opened Engine
  import opened Sentinel2
  import opened Usgs
  import opened MaskRcnn

  datatype PipelineResult = PipelineResult(
    imagery: Sentinel2Image,
    lidar: LidarTile,
    polygons: seq<Polygon>,
    measurements: Measurements)

  /** `runPipeline`. Note that the lidar density is not handed to the
      engine, which therefore uses its default of 0. */
  function RunPipeline(address: string, sqrt: real -> real): (out: PipelineResult)
    requires IsSqrt(sqrt)
    ensures out.polygons == DetectRoofPolygons(out.imagery.id)
    ensures out.imagery == FetchSentinel2(address) && out.lidar == FetchUsgsLidar(address)
    ensures out.measurements == ComputeMeasurements(out.polygons, out.imagery.resolutionM, NoOptions, sqrt)
  {
    var s2 := FetchSentinel2(address);
    var lidar := FetchUsgsLidar(address);
    var polys := DetectRoofPolygons(s2.id);
    var m := ComputeMeasurements(polys, s2.resolutionM, NoOptions, sqrt);
    PipelineResult(s2, lidar, polys, m)
  }

  /** The outputs are the same for every address: the 10 x 12 rectangle at
      10 m per pixel is 12000 m^2 (129167 ft^2) with a 440 m (1444 ft)
      perimeter; with no lidar density the confidence is 35 and the pitch
      is estimated. */
  lemma PipelineOutputs(address: string, sqrt: real -> real)
    requires IsSqrt(sqrt)
    ensures var out := RunPipeline(address, sqrt); var m := out.measurements;
      && out.polygons == [RoofRectangle]
      && out.imagery.resolutionM == 10.0
      && m.roofAreaSqm == 12000.0 && m.roofAreaSqft == 129167
      && m.perimeterM == 440.0 && m.perimeterFt == 1444
      && m.confidenceScore == 35
      && m.pitchEstimated && m.pitchConfidencePct == 40
      && m.complexityScore == 2
  {
    var out := RunPipeline(address, sqrt);
    var polys := out.polygons;
    RoofRectangleArea(10.0);
    RoofRectanglePerimeter(10.0, sqrt);
    assert TotalArea(polys, 10.0) == 12000.0 by {
      assert polys[..0] == [];
    }
    assert TotalPerimeter(polys, 10.0, sqrt) == 440.0 by {
      assert polys[..0] == [];
    }
    RoundOfInteger(120000);
    RoundOfInteger(4400);
    assert RoundToTenth(12000.0) == 12000.0;
    assert RoundToTenth(440.0) == 440.0;
    ComplexityOfRectangle(sqrt);
  }

  lemma ComplexityOfRectangle(sqrt: real -> real)
    requires IsSqrt(sqrt)
    ensures ComplexityScore(440.0, 12000.0, sqrt) == 2
  {
    SqrtBetween(sqrt, 109.0, 12000.0, 110.0);
    var s := sqrt(12000.0);
    var v := 440.0 / s / 2.0;
    assert v * s == 220.0;
    if v < 2.0 {
      assert v * s < 2.0 * s;
    }
    assert Round(v) == 2;
  }

  /** The tests' expectations: positive area and perimeter, 10 m imagery. */
  lemma PipelineTestExpectations(sqrt: real -> real)
    requires IsSqrt(sqrt)
    ensures var out := RunPipeline("123 Main St", sqrt);
      && out.measurements.roofAreaSqm > 0.0 && out.measurements.perimeterM > 0.0
      && out.imagery.resolutionM == 10.0
  {
    PipelineOutputs("123 Main St", sqrt);
  }
}
