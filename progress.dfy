/** The progress bar of components/ui/progress.tsx: the `value` prop, 0 when
    absent, clamped to the percentage range, and the width style built from
    it. */
module Progress {
  import opened Numeric
  import opened Wrappers
  import opened JsStrings

  /** `Math.max(0, Math.min(100, value))` with `value = 0` by default. */
  function Clamped(value: Option<real>): (r: real)
    ensures 0.0 <= r <= 100.0
  {
    var v := if value.Some? then value.value else 0.0;
    Max(0.0, Min(100.0, v))
  }

  /** How a value in range, above it and below it is shown. */
  lemma ClampRule(value: Option<real>)
    ensures value.None? ==> Clamped(value) == 0.0
    ensures value.Some? && 0.0 <= value.value <= 100.0 ==> Clamped(value) == value.value
    ensures value.Some? && value.value > 100.0 ==> Clamped(value) == 100.0
    ensures value.Some? && value.value < 0.0 ==> Clamped(value) == 0.0
  {
  }

  /** Feeding the clamped value back in changes nothing. */
  lemma ClampIsIdempotent(value: Option<real>)
    ensures Clamped(Some(Clamped(value))) == Clamped(value)
  {
  }

  /** Clamping never reverses the order of two values. */
  lemma ClampIsMonotone(a: real, b: real)
    requires a <= b
    ensures Clamped(Some(a)) <= Clamped(Some(b))
  {
  }

  /** JavaScript's text of a number agrees with the decimal text of every
      integer; other numbers are left to the parameter. */
  ghost predicate ShowsIntegers(numberText: real -> string)
  {
    forall n: int {:trigger IntToString(n)} :: numberText(n as real) == IntToString(n)
  }

  /** The inner bar's `width` style, `${clamped}%`. */
  function WidthStyle(value: Option<real>, numberText: real -> string): (s: string)
    ensures |s| > 0 && s[|s| - 1] == '%'
  {
    numberText(Clamped(value)) + "%"
  }

  /** tests/uiComponents.test.ts: a value of 150 draws a full bar. */
  lemma OverfullBarIsFull(numberText: real -> string)
    requires ShowsIntegers(numberText)
    ensures Clamped(Some(150.0)) == 100.0
    ensures WidthStyle(Some(150.0), numberText) == "100%"
  {
    assert numberText(100 as real) == IntToString(100);
    assert NatToString(100) == NatToString(10) + [DigitChar(0)];
    assert NatToString(10) == NatToString(1) + [DigitChar(0)];
  }
}
