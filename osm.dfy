/** Building-footprint selection over a parsed Overpass reply: ways are
    ordered before relations, a relation contributes its first outer way,
    the candidate whose vertex centroid is nearest the query point wins,
    a duplicated closing vertex is dropped, and the bounding box is taken
    from the chosen outline. */
module Osm {
  import opened Numeric
  import opened Coords
  import opened Wrappers

  /** The element types the query asks for (`way(...)` and `relation(...)`). */
  datatype Kind = Way | Relation

  /** A vertex of an Overpass geometry (`{ lat, lon }`). */
  datatype GeoPoint = GeoPoint(lat: real, lon: real)

  /** A relation member: its `role`, its `type` and its optional `geometry`. */
  datatype Member = Member(role: string, memberType: string, geometry: Option<seq<GeoPoint>>)

  /** An element with its optional `geom` and `geometry` arrays and its
      `members` (an absent list is empty). */
  datatype Element = Element(kind: Kind, geom: Option<seq<GeoPoint>>, geometry: Option<seq<GeoPoint>>, members: seq<Member>)

  /** The Overpass request: it threw (network, abort after 3 s or a body
      that is not JSON), answered with a non-ok status, or gave a body whose
      `elements` (an empty list when not an array) are these. */
  datatype OverpassReply = RequestFailed | NotOk | Body(elements: seq<Element>)

  // ---------------------------------------------------------------------------
  // Ordering

  function OfKind(els: seq<Element>, k: Kind): (r: seq<Element>)
    ensures forall i :: 0 <= i < |r| ==> r[i].kind == k
    ensures |r| <= |els|
  {
    if els == [] then []
    else (if els[0].kind == k then [els[0]] else []) + OfKind(els[1..], k)
  }

  /** The comparator sort: the stable sort puts every way (in its original
      order) before every relation (in its original order). */
  function WaysFirst(els: seq<Element>): seq<Element>
  {
    OfKind(els, Way) + OfKind(els, Relation)
  }

  /** After sorting, no way follows a relation. */
  lemma WaysPrecedeRelations(els: seq<Element>)
    ensures var s := WaysFirst(els);
      forall i, j :: 0 <= i < j < |s| && s[i].kind == Relation ==> s[j].kind == Relation
  {
    var ws, rs := OfKind(els, Way), OfKind(els, Relation);
    assert forall i :: 0 <= i < |ws| ==> WaysFirst(els)[i] == ws[i];
    assert forall i :: |ws| <= i < |ws| + |rs| ==> WaysFirst(els)[i] == rs[i - |ws|];
  }

  lemma {:induction false} OfKindAppend(a: seq<Element>, b: seq<Element>, k: Kind)
    ensures OfKind(a + b, k) == OfKind(a, k) + OfKind(b, k)
    decreases |a|
  {
    if a != [] {
      var head := if a[0].kind == k then [a[0]] else [];
      calc {
        OfKind(a + b, k);
        { assert (a + b)[0] == a[0] && (a + b)[1..] == a[1..] + b; }
        head + OfKind(a[1..] + b, k);
        { OfKindAppend(a[1..], b, k); }
        head + (OfKind(a[1..], k) + OfKind(b, k));
        OfKind(a, k) + OfKind(b, k);
      }
    } else {
      assert a + b == b;
    }
  }

  lemma {:induction false} OfKindTwice(els: seq<Element>, k: Kind, k': Kind)
    ensures OfKind(OfKind(els, k), k') == if k == k' then OfKind(els, k) else []
  {
    var r := OfKind(els, k);
    if r != [] {
      OfKindOfUniform(r, k, k');
    }
  }

  lemma {:induction false} OfKindOfUniform(r: seq<Element>, k: Kind, k': Kind)
    requires forall i :: 0 <= i < |r| ==> r[i].kind == k
    ensures OfKind(r, k') == if k == k' then r else []
    decreases |r|
  {
    if r != [] {
      OfKindOfUniform(r[1..], k, k');
      if k == k' {
        assert r == [r[0]] + r[1..];
      }
    }
  }

  /** Within each type the original order is kept. */
  lemma SortKeepsOrderWithinKind(els: seq<Element>, k: Kind)
    ensures OfKind(WaysFirst(els), k) == OfKind(els, k)
  {
    OfKindAppend(OfKind(els, Way), OfKind(els, Relation), k);
    OfKindTwice(els, Way, k);
    OfKindTwice(els, Relation, k);
  }

  /** The sort only reorders. */
  lemma SortIsPermutation(els: seq<Element>)
    ensures multiset(WaysFirst(els)) == multiset(els)
  {
    KindsPartition(els);
  }

  /** Every element is of exactly one of the two kinds. */
  lemma {:induction false} KindsPartition(els: seq<Element>)
    ensures multiset(OfKind(els, Way)) + multiset(OfKind(els, Relation)) == multiset(els)
  {
    if els != [] {
      KindsPartition(els[1..]);
      PartitionStep(els);
    }
  }

  lemma PartitionStep(els: seq<Element>)
    requires els != []
    requires multiset(OfKind(els[1..], Way)) + multiset(OfKind(els[1..], Relation)) == multiset(els[1..])
    ensures multiset(OfKind(els, Way)) + multiset(OfKind(els, Relation)) == multiset(els)
  {
    var x, rest := els[0], els[1..];
    var hw: seq<Element> := if x.kind == Way then [x] else [];
    var hr: seq<Element> := if x.kind == Relation then [x] else [];
    assert OfKind(els, Way) == hw + OfKind(rest, Way);
    assert OfKind(els, Relation) == hr + OfKind(rest, Relation);
    assert multiset(hw) + multiset(hr) == multiset{x};
    MultisetOfCons(els);
  }

  lemma MultisetOfCons(s: seq<Element>)
    requires s != []
    ensures multiset(s) == multiset{s[0]} + multiset(s[1..])
  {
    assert s == [s[0]] + s[1..];
  }

  // ---------------------------------------------------------------------------
  // Candidate geometry

  /** `members.find(m => m.role === 'outer' && m.type === 'way')`. */
  function FirstOuterWay(members: seq<Member>): (r: Option<Member>)
    ensures r.Some? ==> exists i :: 0 <= i < |members| && members[i] == r.value
                          && r.value.role == "outer" && r.value.memberType == "way"
                          && forall j :: 0 <= j < i ==> !(members[j].role == "outer" && members[j].memberType == "way")
    ensures r.None? ==> forall i :: 0 <= i < |members| ==> !(members[i].role == "outer" && members[i].memberType == "way")
  {
    if members == [] then None
    else if members[0].role == "outer" && members[0].memberType == "way" then Some(members[0])
    else
      var r := FirstOuterWay(members[1..]);
      assert r.Some? ==> exists i :: 1 <= i < |members| && members[i] == r.value
                          && forall j :: 1 <= j < i ==> !(members[j].role == "outer" && members[j].memberType == "way");
      r
  }

  /** The geometry of an element: a way's `geom`, else its `geometry`; a
      relation's first outer way member's `geometry`, when it has one. */
  function ElementGeometry(e: Element): Option<seq<GeoPoint>>
  {
    match e.kind
    case Way => if e.geom.Some? then e.geom else e.geometry
    case Relation =>
      var outer := FirstOuterWay(e.members);
      if outer.Some? && outer.value.geometry.Some? then outer.value.geometry else None
  }

  /** Only elements with at least three geometry points are candidates. */
  predicate Qualifies(e: Element)
  {
    ElementGeometry(e).Some? && |ElementGeometry(e).value| >= 3
  }

  function SumLon(g: seq<GeoPoint>): real
  {
    if g == [] then 0.0 else SumLon(g[..|g| - 1]) + g[|g| - 1].lon
  }

  function SumLat(g: seq<GeoPoint>): real
  {
    if g == [] then 0.0 else SumLat(g[..|g| - 1]) + g[|g| - 1].lat
  }

  /** The distance, in degrees, from the query point to the mean of the
      candidate's vertices. */
  function Distance(e: Element, lat: real, lng: real, sqrt: real -> real): real
    requires Qualifies(e)
  {
    var g := ElementGeometry(e).value;
    Hypot(sqrt, SumLon(g) / |g| as real - lng, SumLat(g) / |g| as real - lat)
  }

  /** `i` is the candidate the loop picks: no candidate is nearer, and
      every earlier candidate is strictly farther. */
  ghost predicate IsNearest(els: seq<Element>, i: nat, lat: real, lng: real, sqrt: real -> real)
  {
    && i < |els| && Qualifies(els[i])
    && (forall j :: 0 <= j < |els| && Qualifies(els[j]) ==> Distance(els[i], lat, lng, sqrt) <= Distance(els[j], lat, lng, sqrt))
    && (forall j :: 0 <= j < i && Qualifies(els[j]) ==> Distance(els[i], lat, lng, sqrt) < Distance(els[j], lat, lng, sqrt))
  }

  /** The chosen candidate is determined: two nearest ones coincide. */
  lemma NearestIsUnique(els: seq<Element>, i: nat, k: nat, lat: real, lng: real, sqrt: real -> real)
    requires IsNearest(els, i, lat, lng, sqrt) && IsNearest(els, k, lat, lng, sqrt)
    ensures i == k
  {
  }

  /** The averaging loop over one geometry. */
  method Centroid(g: seq<GeoPoint>) returns (cx: real, cy: real)
    requires |g| > 0
    ensures cx == SumLon(g) / |g| as real && cy == SumLat(g) / |g| as real
  {
    cx, cy := 0.0, 0.0;
    for k := 0 to |g|
      invariant cx == SumLon(g[..k]) && cy == SumLat(g[..k])
    {
      assert g[..k + 1][..k] == g[..k];
      cx := cx + g[k].lon;
      cy := cy + g[k].lat;
    }
    assert g[..|g|] == g;
    cx := cx / |g| as real;
    cy := cy / |g| as real;
  }

  /** The selection loop: the nearest candidate, the first one on a tie. */
  method SelectNearest(els: seq<Element>, lat: real, lng: real, sqrt: real -> real) returns (best: Option<nat>)
    ensures best.None? <==> forall i :: 0 <= i < |els| ==> !Qualifies(els[i])
    ensures best.Some? ==> IsNearest(els, best.value, lat, lng, sqrt)
  {
    best := None;
    var bestDist := 0.0;
    for k := 0 to |els|
      invariant best.None? <==> forall i :: 0 <= i < k ==> !Qualifies(els[i])
      invariant best.Some? ==> && best.value < k && Qualifies(els[best.value])
                               && bestDist == Distance(els[best.value], lat, lng, sqrt)
                               && (forall j :: 0 <= j < k && Qualifies(els[j]) ==> bestDist <= Distance(els[j], lat, lng, sqrt))
                               && (forall j :: 0 <= j < best.value && Qualifies(els[j]) ==> bestDist < Distance(els[j], lat, lng, sqrt))
    {
      var geom := ElementGeometry(els[k]);
      if geom.Some? && |geom.value| >= 3 {
        var cx, cy := Centroid(geom.value);
        var d := Hypot(sqrt, cx - lng, cy - lat);
        if best.None? || d < bestDist {
          best := Some(k);
          bestDist := d;
        }
      }
    }
  }

  // ---------------------------------------------------------------------------
  // Outline

  /** The vertices as `{ lat, lng }` points. */
  function ToLatLngs(g: seq<GeoPoint>): (r: seq<LatLng>)
    ensures |r| == |g| && forall i :: 0 <= i < |g| ==> r[i] == LatLng(g[i].lat, g[i].lon)
  {
    seq(|g|, i requires 0 <= i < |g| => LatLng(g[i].lat, g[i].lon))
  }

  const CloseTolerance: real := 0.000001

  /** More than three points, the last within 1e-6 of the first on both
      axes. */
  predicate RepeatsFirstVertex(poly: seq<LatLng>)
  {
    |poly| > 3 && Abs(poly[0].lat - poly[|poly| - 1].lat) < CloseTolerance
               && Abs(poly[0].lng - poly[|poly| - 1].lng) < CloseTolerance
  }

  /** The outline returned for a candidate geometry. */
  function Outline(g: seq<GeoPoint>): seq<LatLng>
  {
    var poly := ToLatLngs(g);
    if RepeatsFirstVertex(poly) then poly[..|poly| - 1] else poly
  }

  /** The outline is the vertex list, less the last vertex exactly when it
      repeats the first; from three or more vertices at least three remain. */
  lemma OutlineDropsOnlyClosingVertex(g: seq<GeoPoint>)
    ensures var poly := ToLatLngs(g);
      && (RepeatsFirstVertex(poly) ==> Outline(g) == poly[..|poly| - 1])
      && (!RepeatsFirstVertex(poly) ==> Outline(g) == poly)
      && (|g| >= 3 ==> |Outline(g)| >= 3)
  {
  }

  /** `fetchBuildingPolygon` over the reply: null when the request failed,
      the status was not ok, or no element has three or more points;
      otherwise the outline of the nearest candidate after sorting. */
  method FetchBuildingPolygon(reply: OverpassReply, lat: real, lng: real, sqrt: real -> real) returns (polygon: Option<seq<LatLng>>)
    ensures polygon.Some? <==> reply.Body? && exists i :: 0 <= i < |reply.elements| && Qualifies(reply.elements[i])
    ensures polygon.Some? ==> |polygon.value| >= 3
    ensures polygon.Some? ==> var s := WaysFirst(reply.elements);
      exists i: nat :: IsNearest(s, i, lat, lng, sqrt) && polygon.value == Outline(ElementGeometry(s[i]).value)
  {
    if !reply.Body? || |reply.elements| == 0 {
      return None;
    }
    var els := WaysFirst(reply.elements);
    var best := SelectNearest(els, lat, lng, sqrt);
    SortKeepsCandidates(reply.elements);
    if best.None? {
      return None;
    }
    var geom := ElementGeometry(els[best.value]).value;
    var poly := DropClosingVertex(ToLatLngs(geom));
    OutlineDropsOnlyClosingVertex(geom);
    return Some(poly);
  }

  /** Some element qualifies after the sort exactly when one did before. */
  lemma SortKeepsCandidates(els: seq<Element>)
    ensures (exists i :: 0 <= i < |WaysFirst(els)| && Qualifies(WaysFirst(els)[i]))
        <==> (exists i :: 0 <= i < |els| && Qualifies(els[i]))
  {
    var s := WaysFirst(els);
    SortIsPermutation(els);
    if exists i :: 0 <= i < |s| && Qualifies(s[i]) {
      var i :| 0 <= i < |s| && Qualifies(s[i]);
      assert s[i] in multiset(els);
    }
    if exists i :: 0 <= i < |els| && Qualifies(els[i]) {
      var i :| 0 <= i < |els| && Qualifies(els[i]);
      assert els[i] in multiset(s);
    }
  }

  /** `polygon.pop()` when the last vertex repeats the first. */
  method DropClosingVertex(poly: seq<LatLng>) returns (r: seq<LatLng>)
    ensures r == if RepeatsFirstVertex(poly) then poly[..|poly| - 1] else poly
  {
    r := poly;
    if |r| > 3 && Abs(r[0].lat - r[|r| - 1].lat) < CloseTolerance
               && Abs(r[0].lng - r[|r| - 1].lng) < CloseTolerance {
      r := r[..|r| - 1];
    }
  }

  // ---------------------------------------------------------------------------
  // Bounding box

  predicate Within(lo: LatLng, hi: LatLng, p: LatLng)
  {
    lo.lat <= p.lat <= hi.lat && lo.lng <= p.lng <= hi.lng
  }

  /** The corner list of the points' box: (minLat, minLng), (minLat, maxLng),
      (maxLat, maxLng), (maxLat, minLng). */
  function Corners(lo: LatLng, hi: LatLng): seq<LatLng>
  {
    [lo, LatLng(lo.lat, hi.lng), hi, LatLng(hi.lat, lo.lng)]
  }

  /** The box the min/max loop finds, folded from the first point on. */
  function Bounds(ps: seq<LatLng>): (b: (LatLng, LatLng))
    requires |ps| > 0
    ensures forall i :: 0 <= i < |ps| ==> Within(b.0, b.1, ps[i])
  {
    var p := ps[|ps| - 1];
    if |ps| == 1 then (p, p)
    else
      var b := Bounds(ps[..|ps| - 1]);
      assert forall i :: 0 <= i < |ps| - 1 ==> ps[..|ps| - 1][i] == ps[i];
      (LatLng(Min(b.0.lat, p.lat), Min(b.0.lng, p.lng)), LatLng(Max(b.1.lat, p.lat), Max(b.1.lng, p.lng)))
  }

  /** Each side of the box passes through a point, so the box is the
      smallest holding them all. */
  lemma {:induction false} BoundsAttained(ps: seq<LatLng>)
    requires |ps| > 0
    ensures var b := Bounds(ps);
      && (exists i :: 0 <= i < |ps| && ps[i].lat == b.0.lat)
      && (exists i :: 0 <= i < |ps| && ps[i].lng == b.0.lng)
      && (exists i :: 0 <= i < |ps| && ps[i].lat == b.1.lat)
      && (exists i :: 0 <= i < |ps| && ps[i].lng == b.1.lng)
  {
    var b := Bounds(ps);
    var last := |ps| - 1;
    if |ps| == 1 {
      assert ps[0].lat == b.0.lat == b.1.lat && ps[0].lng == b.0.lng == b.1.lng;
    } else {
      var p := ps[..last];
      var pb := Bounds(p);
      BoundsAttained(p);
      assert forall i :: 0 <= i < |p| ==> p[i] == ps[i];
      var i0 :| 0 <= i0 < |p| && p[i0].lat == pb.0.lat;
      var i1 :| 0 <= i1 < |p| && p[i1].lng == pb.0.lng;
      var i2 :| 0 <= i2 < |p| && p[i2].lat == pb.1.lat;
      var i3 :| 0 <= i3 < |p| && p[i3].lng == pb.1.lng;
      assert ps[if pb.0.lat <= ps[last].lat then i0 else last].lat == b.0.lat;
      assert ps[if pb.0.lng <= ps[last].lng then i1 else last].lng == b.0.lng;
      assert ps[if pb.1.lat >= ps[last].lat then i2 else last].lat == b.1.lat;
      assert ps[if pb.1.lng >= ps[last].lng then i3 else last].lng == b.1.lng;
    }
  }

  /** The min/max loop of `fetchBuildingBBox`, and its corner list; null
      for a missing polygon or one with fewer than three points. */
  method BoundingBox(polygon: Option<seq<LatLng>>) returns (corners: Option<seq<LatLng>>)
    ensures corners.None? <==> polygon.None? || |polygon.value| < 3
    ensures corners.Some? ==> var b := Bounds(polygon.value); corners.value == Corners(b.0, b.1)
  {
    if polygon.None? || |polygon.value| < 3 {
      return None;
    }
    var ps := polygon.value;
    var minLat, minLng, maxLat, maxLng := ps[0].lat, ps[0].lng, ps[0].lat, ps[0].lng;
    for k := 1 to |ps|
      invariant (LatLng(minLat, minLng), LatLng(maxLat, maxLng)) == Bounds(ps[..k])
    {
      assert ps[..k + 1][..k] == ps[..k];
      var p := ps[k];
      if p.lat < minLat { minLat := p.lat; }
      if p.lat > maxLat { maxLat := p.lat; }
      if p.lng < minLng { minLng := p.lng; }
      if p.lng > maxLng { maxLng := p.lng; }
    }
    assert ps[..|ps|] == ps;
    return Some(Corners(LatLng(minLat, minLng), LatLng(maxLat, maxLng)));
  }

  /** The corner list holds every polygon point between its first and third
      corner, in the order (minLat, minLng), (minLat, maxLng),
      (maxLat, maxLng), (maxLat, minLng). */
  lemma CornersEncloseOutline(polygon: seq<LatLng>)
    requires |polygon| > 0
    ensures var b := Bounds(polygon); var c := Corners(b.0, b.1);
      && |c| == 4
      && c[0].lat == c[1].lat == b.0.lat && c[2].lat == c[3].lat == b.1.lat
      && c[0].lng == c[3].lng == b.0.lng && c[1].lng == c[2].lng == b.1.lng
      && forall i :: 0 <= i < |polygon| ==> Within(c[0], c[2], polygon[i])
  {
  }

  /** `fetchBuildingBBox`: the corner list of the chosen outline, or null
      when there is none. */
  method FetchBuildingBBox(reply: OverpassReply, lat: real, lng: real, sqrt: real -> real) returns (corners: Option<seq<LatLng>>)
    ensures corners.Some? <==> reply.Body? && exists i :: 0 <= i < |reply.elements| && Qualifies(reply.elements[i])
    ensures corners.Some? ==> var s := WaysFirst(reply.elements);
      exists i: nat :: && IsNearest(s, i, lat, lng, sqrt)
                       && var outline := Outline(ElementGeometry(s[i]).value);
                          |outline| >= 3 && corners.value == Corners(Bounds(outline).0, Bounds(outline).1)
  {
    var polygon := FetchBuildingPolygon(reply, lat, lng, sqrt);
    corners := BoundingBox(polygon);
  }
}
