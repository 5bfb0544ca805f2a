/** The corner editor of components/ui/corner-editor.tsx: the footprint's
    corners, kept in tile pixels, drawn with the overlay's layout; a click
    adds a corner, a delete button removes one while more than three
    remain, and dragging moves one. What each handler passes to
    `onCornersChange` is its result. */
module CornerEditor {
  import opened Wrappers
  import opened Coords
  import opened JsStrings
  import opened ImageOverlay

  // ---------------------------------------------------------------------------
  // Coordinates

  /** `getMousePos`: the pointer relative to the SVG's top-left corner, or
      the origin when the SVG is not mounted. */
  function MousePos(client: Pixel, svgOrigin: Option<Pixel>): (r: Pixel)
    ensures svgOrigin.None? ==> r == Pixel(0.0, 0.0)
    ensures svgOrigin.Some? ==> r.x + svgOrigin.value.x == client.x && r.y + svgOrigin.value.y == client.y
  {
    if svgOrigin.None? then Pixel(0.0, 0.0)
    else Pixel(client.x - svgOrigin.value.x, client.y - svgOrigin.value.y)
  }

  /** `toNaturalCoords`: a container point back in natural pixels, then in
      tile pixels. */
  function ToNaturalCoords(f: Frame, d: Pixel): Pixel
    requires f.Positive()
  {
    var naturalX := (d.x - OffsetX(f)) / DisplayScale(f);
    var naturalY := (d.y - OffsetY(f)) / DisplayScale(f);
    Pixel(naturalX / NaturalScaleX(f), naturalY / NaturalScaleY(f))
  }

  lemma UnscaleScaled(x: real, k: real)
    requires k != 0.0
    ensures Scaled(x, k) / k == x
    ensures Scaled(x / k, k) == x
  {
  }

  /** A corner drawn at its place and read back from there is the same
      corner. */
  lemma TileRoundTrip(f: Frame, p: Pixel)
    requires f.Positive()
    ensures ToNaturalCoords(f, ToDisplay(f, ToNatural(f, p))) == p
  {
    UnscaleScaled(p.x, NaturalScaleX(f));
    UnscaleScaled(p.y, NaturalScaleY(f));
    UnscaleScaled(Scaled(p.x, NaturalScaleX(f)), DisplayScale(f));
    UnscaleScaled(Scaled(p.y, NaturalScaleY(f)), DisplayScale(f));
  }

  /** A pointer position turned into a corner is drawn exactly under the
      pointer. */
  lemma DisplayRoundTrip(f: Frame, d: Pixel)
    requires f.Positive()
    ensures ToDisplay(f, ToNatural(f, ToNaturalCoords(f, d))) == d
  {
    var nx := (d.x - OffsetX(f)) / DisplayScale(f);
    var ny := (d.y - OffsetY(f)) / DisplayScale(f);
    UnscaleScaled(nx, NaturalScaleX(f));
    UnscaleScaled(ny, NaturalScaleY(f));
    UnscaleScaled(d.x - OffsetX(f), DisplayScale(f));
    UnscaleScaled(d.y - OffsetY(f), DisplayScale(f));
  }

  /** The outline: drawn only from three corners on, as a move to the
      first corner, lines joined by ` L ` and a close. */
  function OutlinePath(f: Frame, corners: seq<Pixel>, numberText: real -> string): Option<string>
    requires f.Positive()
  {
    var shown := ScaledPolygon(f, corners);
    if |shown| >= 3
    then Some("M " + Join(seq(|shown|, i requires 0 <= i < |shown| => PointText(numberText, shown[i])), " L ") + " Z")
    else None
  }

  /** The editor draws the same path as the overlay for the same corners. */
  lemma OutlineMatchesOverlay(f: Frame, corners: seq<Pixel>, numberText: real -> string)
    requires f.Positive()
    ensures |corners| >= 3 ==> OutlinePath(f, corners, numberText) == Some(PathData(ScaledPolygon(f, corners), numberText))
    ensures |corners| < 3 ==> OutlinePath(f, corners, numberText) == None
  {
    PathShape(ScaledPolygon(f, corners), numberText);
  }

  // ---------------------------------------------------------------------------
  // The list edits

  /** `corners.filter((_, i) => i !== index)`. */
  function WithoutIndex(corners: seq<Pixel>, index: int): (r: seq<Pixel>)
    ensures |r| <= |corners|
  {
    if corners == [] then []
    else
      var n := |corners| - 1;
      WithoutIndex(corners[..n], index) + (if n != index then [corners[n]] else [])
  }

  /** The filter removes exactly the entry at `index`, keeping the others in
      order, and removes nothing for an index outside the list. */
  lemma {:induction false} WithoutIndexRemovesOne(corners: seq<Pixel>, index: int)
    ensures 0 <= index < |corners| ==> WithoutIndex(corners, index) == corners[..index] + corners[index + 1..]
    ensures !(0 <= index < |corners|) ==> WithoutIndex(corners, index) == corners
    decreases |corners|
  {
    if corners != [] {
      var n := |corners| - 1;
      WithoutIndexRemovesOne(corners[..n], index);
      if 0 <= index < n {
        assert corners[..n][..index] == corners[..index];
        assert corners[..n][index + 1..] + [corners[n]] == corners[index + 1..];
      } else if index == n {
        assert corners[..n][..index] == corners[..index];
      } else {
        assert corners[..n] + [corners[n]] == corners;
      }
    }
  }

  /** `handleDeleteCorner`: ignored while three corners or fewer remain. */
  function Deleted(corners: seq<Pixel>, index: int): Option<seq<Pixel>>
  {
    if |corners| <= 3 then None else Some(WithoutIndex(corners, index))
  }

  /** `handleAddCorner`: ignored while a corner is being dragged. */
  function Added(corners: seq<Pixel>, dragging: Option<nat>, p: Pixel): Option<seq<Pixel>>
  {
    if dragging.Some? then None else Some(corners + [p])
  }

  /** `handleMouseMove`: ignored when nothing is dragged; otherwise the
      dragged entry of a copy is overwritten (an index one past the end
      appends, as an array write there does). */
  function Dragged(corners: seq<Pixel>, dragging: Option<nat>, p: Pixel): Option<seq<Pixel>>
  {
    if dragging.None? then None
    else if dragging.value < |corners| then Some(corners[dragging.value := p])
    else if dragging.value == |corners| then Some(corners + [p])
    else None
  }

  lemma DeleteRule(corners: seq<Pixel>, index: int)
    ensures Deleted(corners, index).None? <==> |corners| <= 3
    ensures |corners| > 3 && 0 <= index < |corners| ==>
      Deleted(corners, index) == Some(corners[..index] + corners[index + 1..])
    ensures |corners| > 3 && !(0 <= index < |corners|) ==> Deleted(corners, index) == Some(corners)
  {
    WithoutIndexRemovesOne(corners, index);
  }

  lemma AddRule(corners: seq<Pixel>, dragging: Option<nat>, p: Pixel)
    ensures Added(corners, dragging, p).None? <==> dragging.Some?
    ensures dragging.None? ==> var r := Added(corners, dragging, p).value;
      |r| == |corners| + 1 && r[..|corners|] == corners && r[|corners|] == p
  {
  }

  lemma DragRule(corners: seq<Pixel>, dragging: Option<nat>, p: Pixel)
    ensures dragging.None? ==> Dragged(corners, dragging, p).None?
    ensures dragging.Some? && dragging.value < |corners| ==> var r := Dragged(corners, dragging, p).value;
      |r| == |corners| && r[dragging.value] == p
      && forall i :: 0 <= i < |corners| && i != dragging.value ==> r[i] == corners[i]
  {
  }

  /** One user action on the corner list. */
  datatype Edit = AddAt(p: Pixel) | DeleteAt(index: int) | DragTo(dragged: nat, p: Pixel)

  /** The list after an action, when it is not ignored. */
  function Apply(corners: seq<Pixel>, e: Edit): seq<Pixel>
  {
    var r := match e
      case AddAt(p) => Added(corners, None, p)
      case DeleteAt(i) => Deleted(corners, i)
      case DragTo(i, p) => Dragged(corners, Some(i), p);
    if r.Some? then r.value else corners
  }

  function ApplyAll(corners: seq<Pixel>, edits: seq<Edit>): seq<Pixel>
    decreases |edits|
  {
    if edits == [] then corners else ApplyAll(Apply(corners, edits[0]), edits[1..])
  }

  /** A polygon of at least three corners keeps at least three whatever
      the user does. */
  lemma {:induction false} NeverBelowThree(corners: seq<Pixel>, edits: seq<Edit>)
    requires |corners| >= 3
    ensures |ApplyAll(corners, edits)| >= 3
    decreases |edits|
  {
    if edits != [] {
      if edits[0].DeleteAt? {
        DeleteRule(corners, edits[0].index);
      }
      NeverBelowThree(Apply(corners, edits[0]), edits[1..]);
    }
  }

  // ---------------------------------------------------------------------------
  // The component's state and handlers

  class Editor {
    var corners: seq<Pixel>
    var dragging: Option<nat>
    var dragStart: Pixel

    /** The initial state: the given corners, nothing dragged. */
    constructor(initialCorners: seq<Pixel>)
      ensures corners == initialCorners && dragging == None && dragStart == Pixel(0.0, 0.0)
    {
      corners := initialCorners;
      dragging := None;
      dragStart := Pixel(0.0, 0.0);
    }

    /** The effect on a new `initialCorners`: taken over unless empty. */
    method Reload(initialCorners: seq<Pixel>)
      modifies this
      ensures corners == (if |initialCorners| > 0 then initialCorners else old(corners))
      ensures dragging == old(dragging) && dragStart == old(dragStart)
    {
      if |initialCorners| > 0 {
        corners := initialCorners;
      }
    }

    /** `handleMouseDown` on the marker of corner `index`. */
    method MouseDown(index: nat, pointer: Pixel)
      modifies this
      ensures dragging == Some(index) && dragStart == pointer && corners == old(corners)
    {
      dragging := Some(index);
      dragStart := pointer;
    }

    /** `handleMouseUp`, also bound to the mouse leaving the SVG. */
    method MouseUp()
      modifies this
      ensures dragging == None && corners == old(corners) && dragStart == old(dragStart)
    {
      dragging := None;
    }

    method MouseMove(f: Frame, pointer: Pixel) returns (notified: Option<seq<Pixel>>)
      requires f.Positive()
      modifies this
      ensures notified == Dragged(old(corners), old(dragging), ToNaturalCoords(f, pointer))
      ensures corners == (if notified.Some? then notified.value else old(corners))
      ensures dragging == old(dragging) && dragStart == old(dragStart)
    {
      if dragging.None? {
        return None;
      }
      var index := dragging.value;
      var natural := ToNaturalCoords(f, pointer);
      var newCorners := corners;
      if index < |newCorners| {
        newCorners := newCorners[index := natural];
      } else if index == |newCorners| {
        newCorners := newCorners + [natural];
      } else {
        return None;
      }
      corners := newCorners;
      return Some(newCorners);
    }

    method AddCorner(f: Frame, pointer: Pixel) returns (notified: Option<seq<Pixel>>)
      requires f.Positive()
      modifies this
      ensures notified == Added(old(corners), old(dragging), ToNaturalCoords(f, pointer))
      ensures corners == (if notified.Some? then notified.value else old(corners))
      ensures dragging == old(dragging) && dragStart == old(dragStart)
    {
      if dragging.Some? {
        return None;
      }
      var newCorners := corners + [ToNaturalCoords(f, pointer)];
      corners := newCorners;
      return Some(newCorners);
    }

    method DeleteCorner(index: int) returns (notified: Option<seq<Pixel>>)
      modifies this
      ensures notified == Deleted(old(corners), index)
      ensures corners == (if notified.Some? then notified.value else old(corners))
      ensures dragging == old(dragging) && dragStart == old(dragStart)
    {
      if |corners| <= 3 {
        return None;
      }
      var newCorners := WithoutIndex(corners, index);
      corners := newCorners;
      return Some(newCorners);
    }
  }
}
