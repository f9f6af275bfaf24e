/** The Kotlin standard-library numerics the source relies on, stated over
    exact reals: `coerceIn`, `coerceAtLeast`, `coerceAtMost`, `toInt()` (which
    truncates toward zero and saturates at the 32-bit range) and `roundToInt()`
    (which rounds half up, as `Math.round` does, and saturates likewise). */
module KotlinMath {

  const INT_MIN: int := -0x8000_0000
  const INT_MAX: int := 0x7fff_ffff

  /** `x.coerceIn(lo, hi)`: the point of [lo, hi] nearest to x. Kotlin throws
      when lo > hi; every call site in the source passes lo <= hi. */
  function CoerceIn(x: real, lo: real, hi: real): (r: real)
    requires lo <= hi
    ensures lo <= r <= hi
    ensures lo <= x <= hi ==> r == x
    ensures x < lo ==> r == lo
    ensures hi < x ==> r == hi
  {
    if x < lo then lo else if x > hi then hi else x
  }

  /** `x.coerceAtLeast(lo)`. */
  function CoerceAtLeast(x: real, lo: real): (r: real)
    ensures lo <= r && x <= r
    ensures r == x || r == lo
  {
    if x < lo then lo else x
  }

  /** `x.coerceAtMost(hi)`. */
  function CoerceAtMost(x: real, hi: real): (r: real)
    ensures r <= hi && r <= x
    ensures r == x || r == hi
  {
    if x > hi then hi else x
  }

  /** Clamping an integer into the range of Kotlin's 32-bit `Int`. */
  function Saturate(n: int): (r: int)
    ensures INT_MIN <= r <= INT_MAX
    ensures INT_MIN <= n <= INT_MAX ==> r == n
  {
    if n < INT_MIN then INT_MIN else if n > INT_MAX then INT_MAX else n
  }

  /** Truncation toward zero. */
  function Trunc(x: real): (r: int)
    ensures 0.0 <= x ==> 0 <= r && r as real <= x < r as real + 1.0
    ensures x < 0.0 ==> r <= 0 && r as real - 1.0 < x <= r as real
  {
    if x >= 0.0 then x.Floor else -((-x).Floor)
  }

  /** `Double.toInt()` / `Float.toInt()`. */
  function ToInt(x: real): int
  {
    Saturate(Trunc(x))
  }

  /** Rounding to the nearest integer, ties toward positive infinity. */
  function RoundHalfUp(x: real): (r: int)
    ensures r as real - 0.5 <= x < r as real + 0.5
  {
    (x + 0.5).Floor
  }

  /** `Double.roundToInt()` / `Float.roundToInt()`. */
  function RoundToInt(x: real): int
  {
    Saturate(RoundHalfUp(x))
  }

  /** A value inside an integer interval truncates into that interval. */
  lemma ToIntWithin(x: real, lo: int, hi: int)
    requires INT_MIN <= lo <= hi <= INT_MAX
    requires lo as real <= x <= hi as real
    ensures lo <= ToInt(x) <= hi
  {
  }

  /** Rounding half up never reverses the order of two values. */
  lemma RoundHalfUpMonotone(x: real, y: real)
    requires x <= y
    ensures RoundHalfUp(x) <= RoundHalfUp(y)
  {
  }

  /** Dividing by a positive number keeps the order of two values. */
  lemma DivideMonotone(x: real, y: real, m: real)
    requires m > 0.0 && x <= y
    ensures x / m <= y / m
  {
    assert y / m - x / m == (y - x) / m;
  }

  /** Where a quotient by a positive number lies relative to [-1, 1]. */
  lemma QuotientBounds(x: real, m: real)
    requires m > 0.0
    ensures x / m * m == x
    ensures x >= m ==> x / m >= 1.0
    ensures x <= -m ==> x / m <= -1.0
    ensures -m <= x <= m ==> -1.0 <= x / m <= 1.0
  {
    DivideMonotone(m, m, m);
    assert m / m == 1.0;
    assert -m / m == -1.0;
    if x >= m {
      DivideMonotone(m, x, m);
    }
    if x <= -m {
      DivideMonotone(x, -m, m);
    }
    if -m <= x <= m {
      DivideMonotone(-m, x, m);
      DivideMonotone(x, m, m);
    }
  }
}
