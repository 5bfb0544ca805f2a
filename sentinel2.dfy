/** The Sentinel-2 imagery stub (src/ml/imagery/sentinel2.ts): an image
    record derived from the address alone. */
module Sentinel2 {
  import opened JsStrings

  datatype Sentinel2Image = Sentinel2Image(id: string, resolutionM: real, bands: seq<string>)

  const IdPrefix: string := "s2-"

  /** `fetchSentinel2`: id `s2-` followed by the address with each run of
      whitespace replaced by one `-`; 10 m resolution; RGB and NIR bands. */
  function FetchSentinel2(address: string): (img: Sentinel2Image)
    ensures StartsWith(img.id, IdPrefix) && img.id[|IdPrefix|..] == DashWhitespaceRuns(address)
    ensures NoWhitespace(img.id)
    ensures img.resolutionM == 10.0
    ensures img.bands == ["RGB", "NIR"]
  {
    DashedHasNoWhitespace(address);
    Sentinel2Image(IdPrefix + DashWhitespaceRuns(address), 10.0, ["RGB", "NIR"])
  }

  /** The id of the address the tests use. */
  lemma MainStreetId()
    ensures FetchSentinel2("123 Main St").id == "s2-123-Main-St"
  {
    var a, b, c := "123", "Main", "St";
    TwoGapsDashed(a, b, c);
    assert a + " " + b + " " + c == "123 Main St";
    assert IdPrefix + (a + "-" + b + "-" + c) == "s2-123-Main-St";
  }

  /** A word followed by a single space: the space becomes a dash. */
  lemma OneGapDashed(a: string, t: string)
    requires NoWhitespace(a) && (t == [] || !IsWhitespace(t[0]))
    ensures DashWhitespaceRuns(a + " " + t) == a + "-" + DashWhitespaceRuns(t)
  {
    var gap := " ";
    calc {
      DashWhitespaceRuns(a + gap + t);
      { assert a + gap + t == a + (gap + t); }
      DashWhitespaceRuns(a + (gap + t));
      { DashedKeepsWord(a, gap + t); }
      a + DashWhitespaceRuns(gap + t);
      { assert |gap| == 1 && IsWhitespace(gap[0]);
        DashedCollapsesRun(gap, t); }
      a + ("-" + DashWhitespaceRuns(t));
      a + "-" + DashWhitespaceRuns(t);
    }
  }

  /** Words separated by single spaces are joined by dashes. */
  lemma TwoGapsDashed(a: string, b: string, c: string)
    requires NoWhitespace(a) && NoWhitespace(b) && NoWhitespace(c) && b != []
    ensures DashWhitespaceRuns(a + " " + b + " " + c) == a + "-" + b + "-" + c
  {
    var t := b + " " + c;
    assert a + " " + b + " " + c == a + " " + t;
    assert t[0] == b[0];
    OneGapDashed(a, t);
    OneGapDashed(b, c);
    DashedKeepsWord(c, "");
    assert c + "" == c;
    assert a + "-" + (b + "-" + c) == a + "-" + b + "-" + c;
  }
}
