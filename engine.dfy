/** The measurement engine (src/ml/measurements/engine.ts): shoelace area and
    edge-sum perimeter of pixel polygons, and the derived roof measurements
    with their rounding, unit conversions and scores. */
module Engine {
  import opened Numeric
  import opened Coords
  import opened Wrappers

  // ---------------------------------------------------------------------------
  // Cyclic edge sums

  /** The quantity each edge (p, q) contributes: the shoelace cross term, or
      the edge's Euclidean length. */
  datatype EdgeMeasure = CrossProduct | Length(sqrt: real -> real)

  function EdgeTerm(e: EdgeMeasure, p: Pixel, q: Pixel): real
  {
    match e
    case CrossProduct => p.x * q.y - q.x * p.y
    case Length(sqrt) => Hypot(sqrt, q.x - p.x, q.y - p.y)
  }

  /** -1 for the cross term (swapping the ends negates it), +1 for the length. */
  function Orientation(e: EdgeMeasure): real
  {
    if e.CrossProduct? then -1.0 else 1.0
  }

  /** Sum of the edge terms along an open path of points. */
  function PathSum(e: EdgeMeasure, s: seq<Pixel>): real
    decreases |s|
  {
    if |s| < 2 then 0.0 else PathSum(e, s[..|s| - 1]) + EdgeTerm(e, s[|s| - 2], s[|s| - 1])
  }

  /** The ring walked from the first vertex back to it. */
  function Closed(poly: Polygon): seq<Pixel>
  {
    if poly == [] then [] else poly + [poly[0]]
  }

  /** Sum of the edge terms over all edges of the ring, the closing edge included. */
  function CyclicSum(e: EdgeMeasure, poly: Polygon): real
  {
    PathSum(e, Closed(poly))
  }

  /** The loops' running total after edges 0 .. k-1, edge i going from
      vertex i to vertex (i + 1) % n. */
  function EdgePrefix(e: EdgeMeasure, poly: Polygon, k: nat): real
    requires k <= |poly|
  {
    if k == 0 then 0.0 else EdgePrefix(e, poly, k - 1) + EdgeTerm(e, poly[k - 1], poly[k % |poly|])
  }

  /** The signed shoelace sum: twice the signed pixel area. */
  function ShoelaceSum(poly: Polygon): real
  {
    CyclicSum(CrossProduct, poly)
  }

  // ---------------------------------------------------------------------------
  // Lemmas about path and cyclic sums

  lemma {:induction false} PathSumCons(e: EdgeMeasure, x: Pixel, s: seq<Pixel>)
    requires |s| >= 1
    ensures PathSum(e, [x] + s) == EdgeTerm(e, x, s[0]) + PathSum(e, s)
    decreases |s|
  {
    var t := [x] + s;
    if |s| == 1 {
      assert t[..|t| - 1] == [x];
    } else {
      assert t[..|t| - 1] == [x] + s[..|s| - 1];
      PathSumCons(e, x, s[..|s| - 1]);
    }
  }

  lemma PathSumSnoc(e: EdgeMeasure, s: seq<Pixel>, x: Pixel)
    requires |s| >= 1
    ensures PathSum(e, s + [x]) == PathSum(e, s) + EdgeTerm(e, s[|s| - 1], x)
  {
    assert (s + [x])[..|s|] == s;
  }

  lemma {:induction false} EdgePrefixIsPath(e: EdgeMeasure, poly: Polygon, k: nat)
    requires 1 <= |poly| && k <= |poly|
    ensures EdgePrefix(e, poly, k) == PathSum(e, Closed(poly)[..k + 1])
  {
    if k > 0 {
      var c := Closed(poly);
      var p := c[..k + 1];
      EdgePrefixIsPath(e, poly, k - 1);
      WrapAround(k, |poly|);
      assert p[..k] == c[..k];
      assert p[k - 1] == poly[k - 1] && p[k] == poly[k % |poly|];
    }
  }

  /** The successor index `k % n` of the source's loops. */
  lemma WrapAround(k: nat, n: nat)
    requires 1 <= n && k <= n
    ensures k % n == if k < n then k else 0
  {
  }

  /** The index loop of the source computes exactly the cyclic sum. */
  lemma LoopTotalIsCyclicSum(e: EdgeMeasure, poly: Polygon)
    ensures EdgePrefix(e, poly, |poly|) == CyclicSum(e, poly)
  {
    if |poly| >= 1 {
      EdgePrefixIsPath(e, poly, |poly|);
      assert Closed(poly)[..|poly| + 1] == Closed(poly);
    }
  }

  function Reverse(s: seq<Pixel>): (r: seq<Pixel>)
    ensures |r| == |s|
    ensures forall i :: 0 <= i < |s| ==> r[i] == s[|s| - 1 - i]
  {
    if s == [] then [] else Reverse(s[1..]) + [s[0]]
  }

  /** The polygon walked from its k-th vertex. */
  function RotateBy(poly: Polygon, k: nat): Polygon
    requires k <= |poly|
  {
    poly[k..] + poly[..k]
  }

  lemma EdgeTermSwap(e: EdgeMeasure, p: Pixel, q: Pixel)
    ensures EdgeTerm(e, q, p) == Orientation(e) * EdgeTerm(e, p, q)
  {
    if e.Length? {
      HypotSymmetric(e.sqrt, q.x - p.x, q.y - p.y);
    }
  }

  lemma {:induction false} PathSumReverse(e: EdgeMeasure, s: seq<Pixel>)
    ensures PathSum(e, Reverse(s)) == Orientation(e) * PathSum(e, s)
    decreases |s|
  {
    if |s| >= 2 {
      var t := s[1..];
      assert s == [s[0]] + t;
      PathSumReverse(e, t);
      PathSumSnoc(e, Reverse(t), s[0]);
      EdgeTermSwap(e, s[0], t[0]);
      PathSumCons(e, s[0], t);
    } else if |s| == 1 {
      assert Reverse(s) == s;
    }
  }

  /** Walking the ring the other way round multiplies the cyclic sum by the
      orientation: the shoelace sum changes sign, the perimeter stays. */
  lemma CyclicSumReverse(e: EdgeMeasure, poly: Polygon)
    ensures CyclicSum(e, Reverse(poly)) == Orientation(e) * CyclicSum(e, poly)
  {
    if |poly| >= 1 {
      var last := poly[|poly| - 1];
      var r := Reverse(poly);
      assert Closed(r) == Reverse([last] + poly) by {
        assert ([last] + poly)[1..] == poly;
      }
      PathSumReverse(e, [last] + poly);
      PathSumCons(e, last, poly);
      PathSumSnoc(e, poly, poly[0]);
    }
  }

  lemma CyclicSumRotateOnce(e: EdgeMeasure, poly: Polygon)
    requires |poly| >= 1
    ensures CyclicSum(e, poly[1..] + [poly[0]]) == CyclicSum(e, poly)
  {
    var a, r := poly[0], poly[1..];
    if r != [] {
      assert Closed(poly) == [a] + (r + [a]);
      PathSumCons(e, a, r + [a]);
      assert Closed(r + [a]) == (r + [a]) + [r[0]];
      PathSumSnoc(e, r + [a], r[0]);
    } else {
      assert poly[1..] + [poly[0]] == poly;
    }
  }

  /** Starting the ring at any vertex leaves the cyclic sum unchanged. */
  lemma {:induction false} CyclicSumRotate(e: EdgeMeasure, poly: Polygon, k: nat)
    requires k <= |poly|
    ensures CyclicSum(e, RotateBy(poly, k)) == CyclicSum(e, poly)
  {
    if k == 0 {
      assert RotateBy(poly, 0) == poly;
    } else {
      CyclicSumRotate(e, poly, k - 1);
      var q := RotateBy(poly, k - 1);
      RotateByStep(poly, k);
      CyclicSumRotateOnce(e, q);
    }
  }

  /** Rotating by one more moves the head of the rotation to its end. */
  lemma RotateByStep(poly: Polygon, k: nat)
    requires 1 <= k <= |poly|
    ensures var q := RotateBy(poly, k - 1); q[1..] + [q[0]] == RotateBy(poly, k)
  {
    var q := RotateBy(poly, k - 1);
    assert q[0] == poly[k - 1];
    assert q[1..] == poly[k..] + poly[..k - 1];
    assert poly[..k] == poly[..k - 1] + [poly[k - 1]];
  }

  lemma {:induction false} PathSumNonNegative(sqrt: real -> real, s: seq<Pixel>)
    requires IsSqrt(sqrt)
    ensures 0.0 <= PathSum(Length(sqrt), s)
    decreases |s|
  {
    if |s| >= 2 {
      PathSumNonNegative(sqrt, s[..|s| - 1]);
      var p, q := s[|s| - 2], s[|s| - 1];
      var dx, dy := q.x - p.x, q.y - p.y;
      assert 0.0 <= dx * dx + dy * dy;
      SqrtNonNegative(sqrt, dx * dx + dy * dy);
    }
  }

  lemma {:induction false} PathSumOfCoincidentPoints(sqrt: real -> real, s: seq<Pixel>, p: Pixel)
    requires IsSqrt(sqrt)
    requires forall i :: 0 <= i < |s| ==> s[i] == p
    ensures PathSum(Length(sqrt), s) == 0.0
    decreases |s|
  {
    if |s| >= 2 {
      PathSumOfCoincidentPoints(sqrt, s[..|s| - 1], p);
      assert sqrt(Square(0.0)) == 0.0;
    }
  }

  // ---------------------------------------------------------------------------
  // Area and perimeter

  /** Pixel shoelace area scaled to square metres. */
  function AreaSqm(poly: Polygon, resolutionM: real): real
  {
    Abs(ShoelaceSum(poly)) / 2.0 * resolutionM * resolutionM
  }

  /** Sum of edge lengths scaled to metres. */
  function PerimeterM(poly: Polygon, resolutionM: real, sqrt: real -> real): real
  {
    CyclicSum(Length(sqrt), poly) * resolutionM
  }

  lemma ScaledNonNegative(a: real, r: real)
    requires 0.0 <= a
    ensures 0.0 <= a * r * r
  {
    assert a * r * r == a * (r * r);
  }

  /** `polygonAreaSqm`: the index loop that accumulates the shoelace terms. */
  method PolygonAreaSqm(poly: Polygon, resolutionM: real) returns (area: real)
    ensures area == AreaSqm(poly, resolutionM)
  {
    var sum := 0.0;
    var i := 0;
    while i < |poly|
      invariant 0 <= i <= |poly|
      invariant sum == EdgePrefix(CrossProduct, poly, i)
    {
      var p1, p2 := poly[i], poly[(i + 1) % |poly|];
      sum := sum + (p1.x * p2.y - p2.x * p1.y);
      i := i + 1;
    }
    LoopTotalIsCyclicSum(CrossProduct, poly);
    var pxArea := Abs(sum) / 2.0;
    area := pxArea * resolutionM * resolutionM;
  }

  /** `polygonPerimeterM`: the index loop that accumulates the edge lengths. */
  method PolygonPerimeterM(poly: Polygon, resolutionM: real, sqrt: real -> real) returns (perimeter: real)
    ensures perimeter == PerimeterM(poly, resolutionM, sqrt)
  {
    var p := 0.0;
    var i := 0;
    while i < |poly|
      invariant 0 <= i <= |poly|
      invariant p == EdgePrefix(Length(sqrt), poly, i)
    {
      var p1, p2 := poly[i], poly[(i + 1) % |poly|];
      var dx := p2.x - p1.x;
      var dy := p2.y - p1.y;
      p := p + Hypot(sqrt, dx, dy);
      i := i + 1;
    }
    LoopTotalIsCyclicSum(Length(sqrt), poly);
    perimeter := p * resolutionM;
  }

  /** The area of a ring is never negative. */
  lemma AreaNonNegative(poly: Polygon, resolutionM: real)
    ensures 0.0 <= AreaSqm(poly, resolutionM)
  {
    ScaledNonNegative(Abs(ShoelaceSum(poly)) / 2.0, resolutionM);
  }

  /** The area does not depend on the direction in which the ring is walked. */
  lemma AreaReverse(poly: Polygon, resolutionM: real)
    ensures AreaSqm(Reverse(poly), resolutionM) == AreaSqm(poly, resolutionM)
  {
    CyclicSumReverse(CrossProduct, poly);
    assert Abs(ShoelaceSum(Reverse(poly))) == Abs(ShoelaceSum(poly));
  }

  /** The area does not depend on the vertex the ring starts from. */
  lemma AreaRotate(poly: Polygon, resolutionM: real, k: nat)
    requires k <= |poly|
    ensures AreaSqm(RotateBy(poly, k), resolutionM) == AreaSqm(poly, resolutionM)
  {
    CyclicSumRotate(CrossProduct, poly, k);
  }

  /** At a non-negative resolution the perimeter is non-negative. */
  lemma PerimeterNonNegative(poly: Polygon, resolutionM: real, sqrt: real -> real)
    requires IsSqrt(sqrt)
    requires 0.0 <= resolutionM
    ensures 0.0 <= PerimeterM(poly, resolutionM, sqrt)
  {
    PathSumNonNegative(sqrt, Closed(poly));
    NonNegativeProduct(CyclicSum(Length(sqrt), poly), resolutionM);
  }

  /** A ring whose vertices all coincide has perimeter zero. */
  lemma PerimeterOfCoincidentPoints(poly: Polygon, resolutionM: real, sqrt: real -> real)
    requires IsSqrt(sqrt)
    requires forall i :: 0 <= i < |poly| ==> poly[i] == poly[0]
    ensures PerimeterM(poly, resolutionM, sqrt) == 0.0
  {
    if |poly| > 0 {
      PathSumOfCoincidentPoints(sqrt, Closed(poly), poly[0]);
    }
  }

  /** The perimeter does not depend on the walking direction. */
  lemma PerimeterReverse(poly: Polygon, resolutionM: real, sqrt: real -> real)
    ensures PerimeterM(Reverse(poly), resolutionM, sqrt) == PerimeterM(poly, resolutionM, sqrt)
  {
    CyclicSumReverse(Length(sqrt), poly);
    assert CyclicSum(Length(sqrt), Reverse(poly)) == CyclicSum(Length(sqrt), poly);
  }

  /** The perimeter does not depend on the starting vertex. */
  lemma PerimeterRotate(poly: Polygon, resolutionM: real, sqrt: real -> real, k: nat)
    requires k <= |poly|
    ensures PerimeterM(RotateBy(poly, k), resolutionM, sqrt) == PerimeterM(poly, resolutionM, sqrt)
  {
    CyclicSumRotate(Length(sqrt), poly, k);
  }

  lemma NonNegativeProduct(a: real, b: real)
    requires 0.0 <= a
    ensures 0.0 <= b ==> 0.0 <= a * b
  {
  }

  // ---------------------------------------------------------------------------
  // computeMeasurements

  /** The optional `opts` argument; an absent `opts` is `NoOptions`. */
  datatype Options = Options(lidarPointDensity: Option<real>, detectionScore: Option<real>)

  const NoOptions: Options := Options(None, None)

  /** `opts?.lidarPointDensity ?? 0` */
  function LidarDensity(opts: Options): real
  {
    if opts.lidarPointDensity.Some? then opts.lidarPointDensity.value else 0.0
  }

  /** `opts?.detectionScore ?? 0.7` */
  function DetectionScore(opts: Options): real
  {
    if opts.detectionScore.Some? then opts.detectionScore.value else 0.7
  }

  datatype Measurements = Measurements(
    roofAreaSqm: real,
    roofAreaSqft: int,
    perimeterM: real,
    perimeterFt: int,
    pitchDeg: real,
    slopePct: real,
    featuresCount: int,
    complexityScore: int,
    confidenceScore: int,
    accuracyPct: int,
    pitchConfidencePct: int,
    pitchEstimated: bool)

  const PitchDeg: real := 30.0
  /** `Math.round(Math.tan(30 * PI / 180) * 1000) / 10`: tan 30 deg is
      0.57735..., so the slope is 577 / 10. */
  const SlopePct: real := 57.7
  const SqftPerSqm: real := 10.7639
  const FtPerM: real := 3.28084
  const LidarThreshold: real := 6.0

  /** `polygons.reduce((acc, poly) => acc + polygonAreaSqm(poly, res), 0)` */
  function TotalArea(polygons: seq<Polygon>, resolutionM: real): real
  {
    if polygons == [] then 0.0
    else TotalArea(polygons[..|polygons| - 1], resolutionM) + AreaSqm(polygons[|polygons| - 1], resolutionM)
  }

  function TotalPerimeter(polygons: seq<Polygon>, resolutionM: real, sqrt: real -> real): real
  {
    if polygons == [] then 0.0
    else TotalPerimeter(polygons[..|polygons| - 1], resolutionM, sqrt) + PerimeterM(polygons[|polygons| - 1], resolutionM, sqrt)
  }

  /** `Math.round(x * 10) / 10` */
  function RoundToTenth(x: real): (r: real)
  {
    Round(x * 10.0) as real / 10.0
  }

  /** `Math.min(10, Math.max(1, Math.round((perimeterM / Math.sqrt(roofAreaSqm || 1)) / 2)))` */
  function ComplexityScore(perimeterM: real, roofAreaSqm: real, sqrt: real -> real): int
    requires IsSqrt(sqrt)
    requires 0.0 <= roofAreaSqm
  {
    var radicand := if roofAreaSqm == 0.0 then 1.0 else roofAreaSqm;
    SqrtPositive(sqrt, radicand);
    MinInt(10, MaxInt(1, Round((perimeterM / sqrt(radicand)) / 2.0)))
  }

  /** `Math.round(Math.min(1, (detScore + Math.min(1, lidarPD / 10)) / 2) * 100)` */
  function ConfidenceScore(detScore: real, lidarPD: real): int
  {
    Round(Min(1.0, (detScore + Min(1.0, lidarPD / 10.0)) / 2.0) * 100.0)
  }

  function ComputeMeasurements(polygons: seq<Polygon>, resolutionM: real, opts: Options, sqrt: real -> real): (m: Measurements)
    requires IsSqrt(sqrt)
    ensures m.pitchDeg == 30.0 && m.slopePct == 57.7
    ensures m.featuresCount == 0 && m.accuracyPct == 3
    ensures 1 <= m.complexityScore <= 10
    ensures 0.0 <= m.roofAreaSqm
    ensures polygons == [] ==>
      && m.roofAreaSqm == 0.0 && m.roofAreaSqft == 0 && m.perimeterM == 0.0 && m.perimeterFt == 0
      && m.complexityScore == 1
      && m.confidenceScore == Round(DetectionScore(opts) * 100.0)
      && m.pitchConfidencePct == (if LidarDensity(opts) > 0.0 then 60 else 40)
      && (m.pitchEstimated <==> LidarDensity(opts) <= 0.0)
    ensures polygons != [] ==>
      && (m.pitchEstimated <==> LidarDensity(opts) < 6.0)
      && m.pitchConfidencePct == (if LidarDensity(opts) >= 6.0 then 80 else 40)
      && TotalArea(polygons, resolutionM) - 0.05 < m.roofAreaSqm <= TotalArea(polygons, resolutionM) + 0.05
      && TotalPerimeter(polygons, resolutionM, sqrt) - 0.05 < m.perimeterM <= TotalPerimeter(polygons, resolutionM, sqrt) + 0.05
      && Integral(m.roofAreaSqm * 10.0) && Integral(m.perimeterM * 10.0)
      && m.roofAreaSqm * SqftPerSqm - 0.5 < m.roofAreaSqft as real <= m.roofAreaSqm * SqftPerSqm + 0.5
      && m.perimeterM * FtPerM - 0.5 < m.perimeterFt as real <= m.perimeterM * FtPerM + 0.5
      && m.complexityScore == ComplexityScore(m.perimeterM, m.roofAreaSqm, sqrt)
      && m.confidenceScore == ConfidenceScore(DetectionScore(opts), LidarDensity(opts))
  {
    var lidarPD := LidarDensity(opts);
    var detScore := DetectionScore(opts);
    if polygons == [] then
      Measurements(
        roofAreaSqm := 0.0, roofAreaSqft := 0, perimeterM := 0.0, perimeterFt := 0,
        pitchDeg := PitchDeg, slopePct := SlopePct, featuresCount := 0, complexityScore := 1,
        confidenceScore := Round(detScore * 100.0), accuracyPct := 3,
        pitchConfidencePct := if lidarPD > 0.0 then 60 else 40,
        pitchEstimated := lidarPD <= 0.0)
    else
      var area := TotalArea(polygons, resolutionM);
      var perimeter := TotalPerimeter(polygons, resolutionM, sqrt);
      var roofAreaSqm := RoundToTenth(area);
      var perimeterM := RoundToTenth(perimeter);
      TotalAreaNonNegative(polygons, resolutionM);
      Measurements(
        roofAreaSqm := roofAreaSqm,
        roofAreaSqft := Round(roofAreaSqm * SqftPerSqm),
        perimeterM := perimeterM,
        perimeterFt := Round(perimeterM * FtPerM),
        pitchDeg := if lidarPD >= LidarThreshold then PitchDeg else PitchDeg,
        slopePct := SlopePct,
        featuresCount := 0,
        complexityScore := ComplexityScore(perimeterM, roofAreaSqm, sqrt),
        confidenceScore := ConfidenceScore(detScore, lidarPD),
        accuracyPct := 3,
        pitchConfidencePct := if lidarPD >= LidarThreshold then 80 else 40,
        pitchEstimated := lidarPD < LidarThreshold)
  }

  lemma {:induction false} TotalAreaNonNegative(polygons: seq<Polygon>, resolutionM: real)
    ensures 0.0 <= TotalArea(polygons, resolutionM)
    decreases |polygons|
  {
    if polygons != [] {
      TotalAreaNonNegative(polygons[..|polygons| - 1], resolutionM);
      AreaNonNegative(polygons[|polygons| - 1], resolutionM);
    }
  }

  /** Absent options behave as a density of 0 and a detection score of 0.7. */
  lemma DefaultOptions(polygons: seq<Polygon>, resolutionM: real, sqrt: real -> real)
    requires IsSqrt(sqrt)
    ensures ComputeMeasurements(polygons, resolutionM, NoOptions, sqrt)
         == ComputeMeasurements(polygons, resolutionM, Options(Some(0.0), Some(0.7)), sqrt)
  {
  }

  /** The confidence lies in [0, 100] for a detection score in [0, 1] and a
      non-negative density. */
  lemma ConfidenceBounds(detScore: real, lidarPD: real)
    requires 0.0 <= detScore <= 1.0 && 0.0 <= lidarPD
    ensures 0 <= ConfidenceScore(detScore, lidarPD) <= 100
  {
  }

  /** The confidence never falls when the detection score or the density rises. */
  lemma ConfidenceMonotone(det1: real, det2: real, pd1: real, pd2: real)
    requires det1 <= det2 && pd1 <= pd2
    ensures ConfidenceScore(det1, pd1) <= ConfidenceScore(det2, pd2)
  {
    var v1 := Min(1.0, (det1 + Min(1.0, pd1 / 10.0)) / 2.0) * 100.0;
    var v2 := Min(1.0, (det2 + Min(1.0, pd2 / 10.0)) / 2.0) * 100.0;
    RoundMonotone(v1, v2);
  }

  /** The reported confidence lies in [0, 100] whenever the options' detection
      score lies in [0, 1] and their density is non-negative, with or without
      polygons. */
  lemma MeasuredConfidenceBounds(polygons: seq<Polygon>, resolutionM: real, opts: Options, sqrt: real -> real)
    requires IsSqrt(sqrt)
    requires 0.0 <= DetectionScore(opts) <= 1.0 && 0.0 <= LidarDensity(opts)
    ensures 0 <= ComputeMeasurements(polygons, resolutionM, opts, sqrt).confidenceScore <= 100
  {
    var det := DetectionScore(opts);
    if polygons == [] {
      RoundMonotone(0.0, det * 100.0);
      RoundMonotone(det * 100.0, 100.0);
      RoundOfInteger(0);
      RoundOfInteger(100);
    } else {
      ConfidenceBounds(det, LidarDensity(opts));
    }
  }

  /** For the same polygons, options with a higher detection score and a
      higher density never lower the reported confidence. */
  lemma MeasuredConfidenceMonotone(polygons: seq<Polygon>, resolutionM: real, o1: Options, o2: Options, sqrt: real -> real)
    requires IsSqrt(sqrt)
    requires DetectionScore(o1) <= DetectionScore(o2) && LidarDensity(o1) <= LidarDensity(o2)
    ensures ComputeMeasurements(polygons, resolutionM, o1, sqrt).confidenceScore
         <= ComputeMeasurements(polygons, resolutionM, o2, sqrt).confidenceScore
  {
    if polygons == [] {
      RoundMonotone(DetectionScore(o1) * 100.0, DetectionScore(o2) * 100.0);
    } else {
      ConfidenceMonotone(DetectionScore(o1), DetectionScore(o2), LidarDensity(o1), LidarDensity(o2));
    }
  }
}
