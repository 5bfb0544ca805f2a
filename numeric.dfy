/** Numeric helpers shared by the whole model: JavaScript's `Math.round`,
    `Math.abs`/`Math.min`/`Math.max` over reals, `2 ** z`, and the facts the
    model assumes of an abstract square root. */
module Numeric {

  /** `Math.round(x)`: the nearest integer, a half rounded toward +infinity. */
  function Round(x: real): (r: int)
    ensures x - 0.5 < r as real <= x + 0.5
  {
    (x + 0.5).Floor
  }

  lemma RoundMonotone(x: real, y: real)
    requires x <= y
    ensures Round(x) <= Round(y)
  {
  }

  lemma RoundOfInteger(n: int)
    ensures Round(n as real) == n
  {
  }

  function Abs(x: real): real
  {
    if x < 0.0 then -x else x
  }

  function Min(a: real, b: real): real
  {
    if a <= b then a else b
  }

  function Max(a: real, b: real): real
  {
    if a >= b then a else b
  }

  function MinInt(a: int, b: int): int
  {
    if a <= b then a else b
  }

  function MaxInt(a: int, b: int): int
  {
    if a >= b then a else b
  }

  /** `2 ** z` for an integer exponent. */
  function Pow2(z: int): (r: real)
    ensures r > 0.0
    decreases if z >= 0 then z else -z
  {
    if z == 0 then 1.0
    else if z > 0 then 2.0 * Pow2(z - 1)
    else Pow2(z + 1) / 2.0
  }

  lemma Pow2Succ(z: int)
    ensures Pow2(z + 1) == 2.0 * Pow2(z)
  {
  }

  function Square(x: real): real
  {
    x * x
  }

  /** What the model assumes of `Math.sqrt`: it is monotone on the
      non-negative reals and gives back `a` for the square of any `a >= 0`.
      `Math.hypot(dx, dy)` is `sqrt(dx * dx + dy * dy)` with the same function. */
  ghost predicate IsSqrt(sqrt: real -> real)
  {
    && (forall a :: 0.0 <= a ==> sqrt(Square(a)) == a)
    && (forall x, y :: 0.0 <= x <= y ==> sqrt(x) <= sqrt(y))
  }

  lemma SqrtNonNegative(sqrt: real -> real, x: real)
    requires IsSqrt(sqrt)
    requires 0.0 <= x
    ensures 0.0 <= sqrt(x)
  {
    assert sqrt(Square(0.0)) == 0.0;
  }

  lemma SqrtPositive(sqrt: real -> real, x: real)
    requires IsSqrt(sqrt)
    requires 0.0 < x
    ensures 0.0 < sqrt(x)
  {
    if x >= 1.0 {
      assert sqrt(Square(1.0)) == 1.0;
    } else {
      ShrinkingSquare(x);
      assert sqrt(Square(x)) == x;
    }
  }

  lemma ShrinkingSquare(x: real)
    requires 0.0 < x < 1.0
    ensures Square(x) <= x
  {
  }

  /** Bounds on a square root from two squares around its argument. */
  lemma SqrtBetween(sqrt: real -> real, lo: real, x: real, hi: real)
    requires IsSqrt(sqrt)
    requires 0.0 <= lo <= hi
    requires Square(lo) <= x <= Square(hi)
    ensures lo <= sqrt(x) <= hi
  {
    assert sqrt(Square(lo)) == lo;
    assert sqrt(Square(hi)) == hi;
  }

  /** `Math.hypot(dx, dy)` in terms of the square root. */
  function Hypot(sqrt: real -> real, dx: real, dy: real): real
  {
    sqrt(dx * dx + dy * dy)
  }

  lemma HypotSymmetric(sqrt: real -> real, dx: real, dy: real)
    ensures Hypot(sqrt, -dx, -dy) == Hypot(sqrt, dx, dy)
  {
    assert (-dx) * (-dx) == dx * dx;
    assert (-dy) * (-dy) == dy * dy;
  }
}
