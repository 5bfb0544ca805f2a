/** The footprint overlay of components/ui/image-overlay.tsx: polygon points
    given in tile pixels are scaled to the image's natural size, then by the
    uniform "object-contain" display scale and centred in the container,
    and drawn as an SVG path. */
module ImageOverlay {
  import opened Numeric
  import opened Coords
  import opened JsStrings

  /** The sizes the overlay is laid out from: the container (`imageWidth`,
      `imageHeight`), the image's natural size and the square tile size the
      polygon is expressed in. */
  datatype Frame = Frame(imageWidth: real, imageHeight: real, naturalWidth: real, naturalHeight: real, tileSize: real)
  {
    predicate Positive()
    {
      imageWidth > 0.0 && imageHeight > 0.0 && naturalWidth > 0.0 && naturalHeight > 0.0 && tileSize > 0.0
    }
  }

  // ---------------------------------------------------------------------------
  // Layout

  /** `naturalWidth / tileSize`. */
  function NaturalScaleX(f: Frame): (k: real)
    requires f.Positive()
    ensures k > 0.0
  {
    f.naturalWidth / f.tileSize
  }

  /** `naturalHeight / tileSize`. */
  function NaturalScaleY(f: Frame): (k: real)
    requires f.Positive()
    ensures k > 0.0
  {
    f.naturalHeight / f.tileSize
  }

  /** `Math.min(imageWidth / naturalWidth, imageHeight / naturalHeight)`:
      the largest uniform scale at which the whole image fits. */
  function DisplayScale(f: Frame): (s: real)
    requires f.Positive()
    ensures s > 0.0
    ensures s <= f.imageWidth / f.naturalWidth && s <= f.imageHeight / f.naturalHeight
    ensures s == f.imageWidth / f.naturalWidth || s == f.imageHeight / f.naturalHeight
  {
    Min(f.imageWidth / f.naturalWidth, f.imageHeight / f.naturalHeight)
  }

  function DisplayedWidth(f: Frame): real
    requires f.Positive()
  {
    Scaled(f.naturalWidth, DisplayScale(f))
  }

  function DisplayedHeight(f: Frame): real
    requires f.Positive()
  {
    Scaled(f.naturalHeight, DisplayScale(f))
  }

  /** `(imageWidth - displayedImageWidth) / 2`. */
  function OffsetX(f: Frame): real
    requires f.Positive()
  {
    (f.imageWidth - DisplayedWidth(f)) / 2.0
  }

  /** `(imageHeight - displayedImageHeight) / 2`. */
  function OffsetY(f: Frame): real
    requires f.Positive()
  {
    (f.imageHeight - DisplayedHeight(f)) / 2.0
  }

  /** A product kept behind a name, so that proofs about the layout meet
      the nonlinear arithmetic only in the lemmas below. */
  function Scaled(x: real, s: real): real
  {
    x * s
  }

  lemma ScaledBelow(x: real, s: real, bound: real)
    requires x > 0.0 && 0.0 <= s <= bound / x
    ensures 0.0 <= Scaled(x, s) <= bound
  {
    assert x * s <= x * (bound / x);
  }

  lemma ScaledExact(x: real, bound: real)
    requires x > 0.0
    ensures Scaled(x, bound / x) == bound
  {
  }

  lemma ScaledMonotone(x: real, y: real, s: real)
    requires x <= y && s >= 0.0
    ensures Scaled(x, s) <= Scaled(y, s)
  {
    assert y * s - x * s == (y - x) * s;
  }

  /** The displayed image fits in the container, both offsets are
      non-negative, and the image fills the container along at least one
      axis, so one offset is zero. */
  lemma LayoutFits(f: Frame)
    requires f.Positive()
    ensures 0.0 <= DisplayedWidth(f) <= f.imageWidth
    ensures 0.0 <= DisplayedHeight(f) <= f.imageHeight
    ensures OffsetX(f) >= 0.0 && OffsetY(f) >= 0.0
    ensures OffsetX(f) == 0.0 || OffsetY(f) == 0.0
  {
    var s := DisplayScale(f);
    ScaledBelow(f.naturalWidth, s, f.imageWidth);
    ScaledBelow(f.naturalHeight, s, f.imageHeight);
    if s == f.imageWidth / f.naturalWidth {
      ScaledExact(f.naturalWidth, f.imageWidth);
    } else {
      ScaledExact(f.naturalHeight, f.imageHeight);
    }
  }

  // ---------------------------------------------------------------------------
  // The point maps

  /** A tile-pixel point in natural image pixels (`naturalPolygon`). */
  function ToNatural(f: Frame, p: Pixel): Pixel
    requires f.Positive()
  {
    Pixel(Scaled(p.x, NaturalScaleX(f)), Scaled(p.y, NaturalScaleY(f)))
  }

  /** A natural-pixel point in container pixels (`scaledPolygon`). */
  function ToDisplay(f: Frame, p: Pixel): Pixel
    requires f.Positive()
  {
    Pixel(Scaled(p.x, DisplayScale(f)) + OffsetX(f), Scaled(p.y, DisplayScale(f)) + OffsetY(f))
  }

  /** The polygon as drawn. */
  function ScaledPolygon(f: Frame, polygon: seq<Pixel>): (r: seq<Pixel>)
    requires f.Positive()
    ensures |r| == |polygon|
  {
    seq(|polygon|, i requires 0 <= i < |polygon| => ToDisplay(f, ToNatural(f, polygon[i])))
  }

  /** Each drawn point is `x * (naturalWidth / tileSize) * s + offsetX`, and
      likewise for y, with `s` the display scale. */
  lemma ScaledPointFormula(f: Frame, polygon: seq<Pixel>, i: int)
    requires f.Positive() && 0 <= i < |polygon|
    ensures ScaledPolygon(f, polygon)[i] == Pixel(
      polygon[i].x * (f.naturalWidth / f.tileSize) * DisplayScale(f) + OffsetX(f),
      polygon[i].y * (f.naturalHeight / f.tileSize) * DisplayScale(f) + OffsetY(f))
  {
  }

  /** Drawing commutes with taking a sub-polygon. */
  lemma ScaledPolygonAppend(f: Frame, a: seq<Pixel>, b: seq<Pixel>)
    requires f.Positive()
    ensures ScaledPolygon(f, a + b) == ScaledPolygon(f, a) + ScaledPolygon(f, b)
  {
    assert forall i :: 0 <= i < |a + b| ==> ScaledPolygon(f, a + b)[i] == (ScaledPolygon(f, a) + ScaledPolygon(f, b))[i];
  }

  /** A coordinate of the tile, between 0 and the tile size, lands on the
      displayed image, which lies inside the container. */
  lemma AxisStaysOnImage(x: real, tileSize: real, natural: real, s: real, offset: real, container: real)
    requires tileSize > 0.0 && natural > 0.0 && s > 0.0 && offset >= 0.0
    requires 0.0 <= x <= tileSize
    requires offset + Scaled(natural, s) <= container
    ensures offset <= Scaled(Scaled(x, natural / tileSize), s) + offset <= container
  {
    var k := natural / tileSize;
    ScaledMonotone(0.0, x, k);
    ScaledMonotone(x, tileSize, k);
    ScaledExact(tileSize, natural);
    ScaledMonotone(0.0, Scaled(x, k), s);
    ScaledMonotone(Scaled(x, natural / tileSize), natural, s);
  }

  lemma TilePointIsOnImage(f: Frame, p: Pixel)
    requires f.Positive()
    requires 0.0 <= p.x <= f.tileSize && 0.0 <= p.y <= f.tileSize
    ensures OffsetX(f) <= ToDisplay(f, ToNatural(f, p)).x <= OffsetX(f) + DisplayedWidth(f) <= f.imageWidth
    ensures OffsetY(f) <= ToDisplay(f, ToNatural(f, p)).y <= OffsetY(f) + DisplayedHeight(f) <= f.imageHeight
  {
    LayoutFits(f);
    var s := DisplayScale(f);
    AxisStaysOnImage(p.x, f.tileSize, f.naturalWidth, s, OffsetX(f), OffsetX(f) + DisplayedWidth(f));
    AxisStaysOnImage(p.y, f.tileSize, f.naturalHeight, s, OffsetY(f), OffsetY(f) + DisplayedHeight(f));
  }

  // ---------------------------------------------------------------------------
  // The SVG path

  /** `${x} ${y}` with the number text left to the parameter. */
  function PointText(numberText: real -> string, p: Pixel): string
  {
    numberText(p.x) + " " + numberText(p.y)
  }

  /** One path command per point: a move to the first, a line to the rest. */
  function Commands(points: seq<Pixel>, numberText: real -> string): (r: seq<string>)
    ensures |r| == |points|
  {
    seq(|points|, i requires 0 <= i < |points| => (if i == 0 then "M " else "L ") + PointText(numberText, points[i]))
  }

  /** `pathData`: the commands joined by spaces, then ` Z`. */
  function PathData(points: seq<Pixel>, numberText: real -> string): string
  {
    Join(Commands(points, numberText), " ") + " Z"
  }

  /** The path moves to the first point, draws a line to every later point
      in order and closes; without points it is only the closing ` Z`. */
  lemma PathShape(points: seq<Pixel>, numberText: real -> string)
    ensures points == [] ==> PathData(points, numberText) == " Z"
    ensures points != [] ==>
      PathData(points, numberText) == "M " + Join(seq(|points|, i requires 0 <= i < |points| => PointText(numberText, points[i])), " L ") + " Z"
  {
    if points != [] {
      var texts := seq(|points|, i requires 0 <= i < |points| => PointText(numberText, points[i]));
      JoinOfLedParts(Commands(points, numberText), texts, " ", "M ", "L ");
      assert " " + "L " == " L ";
    }
  }

  /** The path of a non-empty polygon starts with a move command and
      every path ends with ` Z`. */
  lemma PathEnds(points: seq<Pixel>, numberText: real -> string)
    ensures StartsWith(PathData(points, numberText), if points == [] then " Z" else "M ")
    ensures var d := PathData(points, numberText); |d| >= 2 && d[|d| - 2..] == " Z"
  {
    PathShape(points, numberText);
  }
}
