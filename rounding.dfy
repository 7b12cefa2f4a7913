/** The rounding step shared by every real-valued sampler:
    `Math.round(x * Math.pow(10, d)) / Math.pow(10, d)`, on exact reals.
    `Math.round` is `floor(y + 1/2)` saturated to the range of Java's `long`. */
module Rounding {
  import opened JavaNumbers

  function Pow10(n: nat): (r: nat)
    ensures r >= 1
  {
    if n == 0 then 1 else 10 * Pow10(n - 1)
  }

  /** `Math.pow(10, d)` for any `int` exponent, negative ones included. */
  function Factor(d: int): (f: real)
    ensures f > 0.0
    ensures d >= 0 ==> f == Pow10(d) as real
    ensures d < 0 ==> f * Pow10(-d) as real == 1.0
  {
    if d >= 0 then Pow10(d) as real else 1.0 / Pow10(-d) as real
  }

  /** Java's `Math.round(double)`: round half up, then clamp to the `long` range. */
  function JavaRound(y: real): (k: int)
    ensures MinLong <= k <= MaxLong
    ensures MinLong as real <= y <= MaxLong as real ==> y - 0.5 < k as real <= y + 0.5
  {
    var n := (y + 0.5).Floor;
    if n < MinLong then MinLong else if n > MaxLong then MaxLong else n
  }

  predicate IsIntegral(y: real) {
    y.Floor as real == y
  }

  /** The points `k / f` with `k` a Java `long`: exactly the values rounding to the
      grid of step `1 / f` can produce. With `f = 10^d` these are the values with
      at most `d` fractional digits. */
  predicate GridPoint(v: real, f: real)
    requires f > 0.0
  {
    IsIntegral(v * f) && MinLong as real <= v * f <= MaxLong as real
  }

  /** Rounding `x` to the grid of step `1 / f`. */
  function RoundTo(x: real, f: real): (r: real)
    requires f > 0.0
    ensures r * f == JavaRound(x * f) as real
    ensures GridPoint(r, f)
  {
    var k := JavaRound(x * f) as real;
    assert (k / f) * f == k;
    k / f
  }

  lemma MulMonotone(x: real, y: real, f: real)
    requires f > 0.0 && x <= y
    ensures x * f <= y * f
  {
  }

  lemma DivMonotone(a: real, b: real, f: real)
    requires f > 0.0 && a <= b
    ensures a / f <= b / f
  {
  }

  lemma FloorMonotone(a: real, b: real)
    requires a <= b
    ensures a.Floor <= b.Floor
  {
    assert a.Floor as real <= a;
    assert b < b.Floor as real + 1.0;
  }

  /** Rounding never reverses the order of two values. */
  lemma {:induction false} RoundToMonotone(x: real, y: real, f: real)
    requires f > 0.0 && x <= y
    ensures RoundTo(x, f) <= RoundTo(y, f)
  {
    MulMonotone(x, y, f);
    assert x * f <= y * f;
    FloorMonotone(x * f + 0.5, y * f + 0.5);
    assert JavaRound(x * f) <= JavaRound(y * f);
    DivMonotone(JavaRound(x * f) as real, JavaRound(y * f) as real, f);
  }

  /** The grid points are exactly the values that rounding leaves unchanged. */
  lemma {:induction false} RoundToFixesGrid(v: real, f: real)
    requires f > 0.0
    ensures GridPoint(v, f) <==> RoundTo(v, f) == v
  {
    if GridPoint(v, f) {
      var k := (v * f).Floor;
      assert (k as real + 0.5).Floor == k;
      assert JavaRound(v * f) == k;
      assert RoundTo(v, f) * f == v * f;
    }
  }

  /** Within the `long` range rounding moves a value by at most half a grid step,
      and a tie is broken upwards. */
  lemma RoundToIsNearest(x: real, f: real)
    requires f > 0.0
    requires MinLong as real <= x * f <= MaxLong as real
    ensures x - 0.5 / f < RoundTo(x, f) <= x + 0.5 / f
  {
  }

  /** A value at or above a grid point rounds to at least that grid point. */
  lemma {:induction false} RoundToAboveGridPoint(x: real, lo: real, f: real)
    requires f > 0.0 && GridPoint(lo, f) && lo <= x
    ensures lo <= RoundTo(x, f)
  {
    RoundToFixesGrid(lo, f);
    RoundToMonotone(lo, x, f);
  }

  /** A value at or below a grid point rounds to at most that grid point. */
  lemma {:induction false} RoundToBelowGridPoint(x: real, hi: real, f: real)
    requires f > 0.0 && GridPoint(hi, f) && x <= hi
    ensures RoundTo(x, f) <= hi
  {
    RoundToFixesGrid(hi, f);
    RoundToMonotone(x, hi, f);
  }
}
