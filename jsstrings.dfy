/** The JavaScript string built-ins the core relies on: the whitespace class
    shared by `String.prototype.trim` and the regular-expression class `\s`,
    `trim()`, `replace(/\s+/g, '-')`, and the decimal text of an integer as a
    template literal prints it. */
module JsStrings {
  import opened Wrappers

  /** WhiteSpace and LineTerminator code points of ECMAScript. */
  predicate IsWhitespace(c: char)
  {
    || c == '\t' || c == '\n' || c == '\U{000B}' || c == '\U{000C}' || c == '\r'
    || c == ' ' || c == '\U{00A0}' || c == '\U{1680}'
    || ('\U{2000}' <= c <= '\U{200A}')
    || c == '\U{2028}' || c == '\U{2029}' || c == '\U{202F}' || c == '\U{205F}'
    || c == '\U{3000}' || c == '\U{FEFF}'
  }

  predicate NoWhitespace(s: string)
  {
    forall i :: 0 <= i < |s| ==> !IsWhitespace(s[i])
  }

  predicate AllWhitespace(s: string)
  {
    forall i :: 0 <= i < |s| ==> IsWhitespace(s[i])
  }

  // ---------------------------------------------------------------------------
  // trim()

  /** Drops the leading whitespace. */
  function TrimStart(s: string): (r: string)
    ensures |r| <= |s| && r == s[|s| - |r|..]
    ensures AllWhitespace(s[..|s| - |r|])
    ensures r == [] || !IsWhitespace(r[0])
  {
    if s != [] && IsWhitespace(s[0]) then TrimStart(s[1..]) else s
  }

  /** Drops the trailing whitespace. */
  function TrimEnd(s: string): (r: string)
    ensures |r| <= |s| && r == s[..|r|]
    ensures AllWhitespace(s[|r|..])
    ensures r == [] || !IsWhitespace(r[|r| - 1])
  {
    if s != [] && IsWhitespace(s[|s| - 1]) then TrimEnd(s[..|s| - 1]) else s
  }

  /** `s.trim()`: the leading whitespace, then the trailing whitespace,
      removed. */
  function Trim(s: string): (r: string)
    ensures |r| <= |s|
  {
    TrimEnd(TrimStart(s))
  }

  /** The trimmed text is the slice of `s` left between a whitespace prefix
      and a whitespace suffix ... */
  lemma TrimIsInnerSlice(s: string) returns (i: nat, j: nat)
    ensures i <= j <= |s| && Trim(s) == s[i..j]
    ensures AllWhitespace(s[..i]) && AllWhitespace(s[j..])
  {
    var t := TrimStart(s);
    var r := TrimEnd(t);
    i := |s| - |t|;
    j := i + |r|;
    SliceOfSuffix(s, i, |r|);
  }

  /** ... and starts and ends with a character that is not whitespace. */
  lemma TrimmedEndsAreSolid(s: string)
    ensures Trim(s) == [] || (!IsWhitespace(Trim(s)[0]) && !IsWhitespace(Trim(s)[|Trim(s)| - 1]))
  {
    var t := TrimStart(s);
    var r := TrimEnd(t);
    assert r != [] ==> r[0] == t[0];
  }

  lemma SliceOfSuffix(s: string, i: nat, k: nat)
    requires i + k <= |s|
    ensures s[i..][..k] == s[i..i + k] && s[i..][k..] == s[i + k..]
  {
  }

  lemma {:induction false} TrimStartOfPadded(a: string, x: string)
    requires AllWhitespace(a) && (x == [] || !IsWhitespace(x[0]))
    ensures TrimStart(a + x) == x
  {
    if a != [] {
      assert (a + x)[1..] == a[1..] + x;
      TrimStartOfPadded(a[1..], x);
    } else {
      assert a + x == x;
    }
  }

  lemma {:induction false} TrimEndOfPadded(x: string, b: string)
    requires AllWhitespace(b) && (x == [] || !IsWhitespace(x[|x| - 1]))
    ensures TrimEnd(x + b) == x
    decreases |b|
  {
    if b != [] {
      assert (x + b)[..|x + b| - 1] == x + b[..|b| - 1];
      TrimEndOfPadded(x, b[..|b| - 1]);
    } else {
      assert x + b == x;
    }
  }

  /** Trimming a word padded with whitespace on both sides gives the word. */
  lemma TrimOfPadded(a: string, w: string, b: string)
    requires AllWhitespace(a) && AllWhitespace(b)
    requires w == [] || (!IsWhitespace(w[0]) && !IsWhitespace(w[|w| - 1]))
    ensures Trim(a + w + b) == w
  {
    if w == [] {
      assert a + w + b == a + b;
      TrimStartOfPadded(a + b, []);
      assert a + b + [] == a + b;
      assert AllWhitespace(a + b) by {
        assert forall i :: 0 <= i < |a + b| ==> (a + b)[i] == if i < |a| then a[i] else b[i - |a|];
      }
      TrimEndOfPadded([], []);
    } else {
      assert a + w + b == a + (w + b);
      TrimStartOfPadded(a, w + b);
      TrimEndOfPadded(w, b);
    }
  }

  // ---------------------------------------------------------------------------
  // replace(/\s+/g, '-')

  function DropWhitespace(s: string): (r: string)
    ensures |r| <= |s|
    ensures s != [] && IsWhitespace(s[0]) ==> |r| < |s|
    ensures r == [] || !IsWhitespace(r[0])
  {
    if s != [] && IsWhitespace(s[0]) then DropWhitespace(s[1..]) else s
  }

  /** Every maximal run of whitespace replaced by one '-'. */
  function DashWhitespaceRuns(s: string): string
    decreases |s|
  {
    if s == [] then []
    else if IsWhitespace(s[0]) then "-" + DashWhitespaceRuns(DropWhitespace(s))
    else [s[0]] + DashWhitespaceRuns(s[1..])
  }

  /** The result contains no whitespace. */
  lemma {:induction false} DashedHasNoWhitespace(s: string)
    ensures NoWhitespace(DashWhitespaceRuns(s))
    decreases |s|
  {
    if s == [] {
    } else if IsWhitespace(s[0]) {
      DashedHasNoWhitespace(DropWhitespace(s));
    } else {
      DashedHasNoWhitespace(s[1..]);
    }
  }

  /** A stretch without whitespace is copied unchanged ... */
  lemma {:induction false} DashedKeepsWord(w: string, t: string)
    requires NoWhitespace(w)
    ensures DashWhitespaceRuns(w + t) == w + DashWhitespaceRuns(t)
    decreases |w|
  {
    if w != [] {
      assert (w + t)[0] == w[0] && !IsWhitespace(w[0]);
      assert (w + t)[1..] == w[1..] + t;
      DashedKeepsWord(w[1..], t);
      calc {
        DashWhitespaceRuns(w + t);
        [w[0]] + DashWhitespaceRuns(w[1..] + t);
        [w[0]] + (w[1..] + DashWhitespaceRuns(t));
        { assert w == [w[0]] + w[1..]; }
        w + DashWhitespaceRuns(t);
      }
    } else {
      assert w + t == t;
    }
  }

  lemma {:induction false} DropWhitespaceRun(r: string, t: string)
    requires AllWhitespace(r)
    requires t == [] || !IsWhitespace(t[0])
    ensures DropWhitespace(r + t) == t
    decreases |r|
  {
    if r != [] {
      assert (r + t)[1..] == r[1..] + t;
      DropWhitespaceRun(r[1..], t);
    }
  }

  /** ... and a maximal non-empty whitespace run becomes a single '-'. */
  lemma DashedCollapsesRun(r: string, t: string)
    requires |r| > 0 && AllWhitespace(r)
    requires t == [] || !IsWhitespace(t[0])
    ensures DashWhitespaceRuns(r + t) == "-" + DashWhitespaceRuns(t)
  {
    DropWhitespaceRun(r, t);
  }

  // ---------------------------------------------------------------------------
  // Decimal text of integers

  function DigitChar(d: int): char
    requires 0 <= d <= 9
  {
    "0123456789"[d]
  }

  predicate IsDigit(c: char)
  {
    '0' <= c <= '9'
  }

  function NatToString(n: nat): (s: string)
    ensures |s| > 0
    ensures forall i :: 0 <= i < |s| ==> IsDigit(s[i])
    decreases n
  {
    if n < 10 then [DigitChar(n)] else NatToString(n / 10) + [DigitChar(n % 10)]
  }

  /** `${n}` for an integer n. */
  function IntToString(n: int): (s: string)
    ensures |s| > 0
    ensures forall i :: 0 <= i < |s| ==> IsDigit(s[i]) || (i == 0 && s[i] == '-')
  {
    if n < 0 then "-" + NatToString(-n) else NatToString(n)
  }

  /** Reads back a non-empty run of decimal digits. */
  function ParseNat(s: string): (n: int)
    requires forall i :: 0 <= i < |s| ==> IsDigit(s[i])
    ensures n >= 0
    decreases |s|
  {
    if s == [] then 0
    else
      assert IsDigit(s[|s| - 1]);
      10 * ParseNat(s[..|s| - 1]) + (s[|s| - 1] as int - '0' as int)
  }

  function ParseInt(s: string): Option<int>
  {
    if |s| > 1 && s[0] == '-' && (forall i :: 1 <= i < |s| ==> IsDigit(s[i])) then Some(-ParseNat(s[1..]))
    else if |s| > 0 && (forall i :: 0 <= i < |s| ==> IsDigit(s[i])) then Some(ParseNat(s))
    else None
  }

  lemma {:induction false} ParseNatToString(n: nat)
    ensures ParseNat(NatToString(n)) == n
    decreases n
  {
    if n >= 10 {
      var s := NatToString(n);
      assert s[..|s| - 1] == NatToString(n / 10);
      ParseNatToString(n / 10);
    }
  }

  /** The decimal text of an integer reads back as that integer. */
  lemma ParseIntToString(n: int)
    ensures ParseInt(IntToString(n)) == Some(n)
  {
    var s := IntToString(n);
    if n < 0 {
      var d := NatToString(-n);
      ParseNatToString(-n);
      assert s == "-" + d && s[1..] == d;
      assert forall i :: 1 <= i < |s| ==> s[i] == d[i - 1];
    } else {
      ParseNatToString(n);
      assert s[0] != '-' by { assert IsDigit(s[0]); }
    }
  }

  // ---------------------------------------------------------------------------
  // Prefixes and separators

  predicate StartsWith(s: string, prefix: string)
  {
    |prefix| <= |s| && s[..|prefix|] == prefix
  }

  /** `s` cut at the first `sep`: the part before it and, when there is
      one, the part after it. */
  function SplitFirst(s: string, sep: char): (r: (string, Option<string>))
    ensures r.1.None? ==> r.0 == s && sep !in s
    ensures r.1.Some? ==> s == r.0 + [sep] + r.1.value && sep !in r.0
  {
    if s == [] then ([], None)
    else if s[0] == sep then ([], Some(s[1..]))
    else
      var t := SplitFirst(s[1..], sep);
      ([s[0]] + t.0, t.1)
  }

  /** A field free of the separator is cut off exactly. */
  lemma {:induction false} SplitFirstOfField(a: string, sep: char, b: string)
    requires sep !in a
    ensures SplitFirst(a + [sep] + b, sep) == (a, Some(b))
    decreases |a|
  {
    var s := a + [sep] + b;
    if a == [] {
      assert s[0] == sep && s[1..] == b;
    } else {
      assert s[0] == a[0] && s[1..] == a[1..] + [sep] + b;
      SplitFirstOfField(a[1..], sep, b);
      assert a == [a[0]] + a[1..];
    }
  }

  /** Three integers separated by `sep`, read back. */
  function ParseIntTriple(s: string, sep: char): Option<(int, int, int)>
  {
    var (a, rest) := SplitFirst(s, sep);
    if rest.None? then None
    else
      var (b, c) := SplitFirst(rest.value, sep);
      if c.None? then None
      else match (ParseInt(a), ParseInt(b), ParseInt(c.value))
        case (Some(x), Some(y), Some(z)) => Some((x, y, z))
        case _ => None
  }

  /** The text of an integer holds no character other than digits and '-'. */
  lemma IntTextAvoids(n: int, c: char)
    requires !IsDigit(c) && c != '-'
    ensures c !in IntToString(n)
  {
  }

  /** Three integers written with a separator that is neither a digit nor
      '-' read back as those integers. */
  lemma ParseIntTripleOfText(x: int, y: int, z: int, sep: char)
    requires !IsDigit(sep) && sep != '-'
    ensures ParseIntTriple(IntToString(x) + [sep] + IntToString(y) + [sep] + IntToString(z), sep) == Some((x, y, z))
  {
    var a, b, c := IntToString(x), IntToString(y), IntToString(z);
    IntTextAvoids(x, sep);
    IntTextAvoids(y, sep);
    IntTextAvoids(z, sep);
    assert a + [sep] + b + [sep] + c == a + [sep] + (b + [sep] + c);
    SplitFirstOfField(a, sep, b + [sep] + c);
    SplitFirstOfField(b, sep, c);
    ParseIntToString(x);
    ParseIntToString(y);
    ParseIntToString(z);
  }
  // ---------------------------------------------------------------------------
  // Joining

  /** `parts.join(sep)`. */
  function Join(parts: seq<string>, sep: string): (s: string)
    ensures parts == [] ==> s == ""
    ensures |parts| == 1 ==> s == parts[0]
  {
    if |parts| == 0 then ""
    else if |parts| == 1 then parts[0]
    else Join(parts[..|parts| - 1], sep) + sep + parts[|parts| - 1]
  }

  /** Parts that all carry a lead-in, `a` on the first and `b` on every
      later one, join to `a` followed by the bare parts joined with the
      separator extended by `b`. */
  lemma {:induction false} JoinOfLedParts(parts: seq<string>, texts: seq<string>, sep: string, a: string, b: string)
    requires |parts| == |texts| > 0
    requires parts[0] == a + texts[0]
    requires forall i :: 0 < i < |parts| ==> parts[i] == b + texts[i]
    ensures Join(parts, sep) == a + Join(texts, sep + b)
    decreases |parts|
  {
    var n := |parts|;
    if n > 1 {
      JoinOfLedParts(parts[..n - 1], texts[..n - 1], sep, a, b);
      var j := Join(texts[..n - 1], sep + b);
      calc {
        Join(parts, sep);
        Join(parts[..n - 1], sep) + sep + parts[n - 1];
        a + j + sep + (b + texts[n - 1]);
        { assert a + j + sep + (b + texts[n - 1]) == a + (j + (sep + b) + texts[n - 1]); }
        a + (j + (sep + b) + texts[n - 1]);
        a + Join(texts, sep + b);
      }
    }
  }
}
