/** The numeric conversions the pipeline applies to its results, on exact
    rationals: numpy's and Python's `round` (half to even), Python's `int()`
    of a float (truncation toward zero), and `max(lo, min(hi, x))`. */
module Numeric {

  /** Round to the nearest integer, ties to the even neighbour, as numpy's
      `Series.round()` and Python's `round(x)` do. */
  function RoundHalfEven(x: real): (n: int)
    ensures x - 0.5 <= n as real <= x + 0.5
    ensures (n as real - x == 0.5 || x - n as real == 0.5) ==> n % 2 == 0
  {
    var f := x.Floor;
    var frac := x - f as real;
    if frac < 0.5 then f
    else if frac > 0.5 then f + 1
    else if f % 2 == 0 then f
    else f + 1
  }

  lemma RoundHalfEvenMonotone(x: real, y: real)
    requires x <= y
    ensures RoundHalfEven(x) <= RoundHalfEven(y)
  {
  }

  lemma RoundHalfEvenOfInteger(n: int)
    ensures RoundHalfEven(n as real) == n
  {
  }

  /** Rounding never leaves an interval whose ends are integers. */
  lemma RoundHalfEvenBetween(x: real, lo: int, hi: int)
    requires lo as real <= x <= hi as real
    ensures lo <= RoundHalfEven(x) <= hi
  {
    RoundHalfEvenMonotone(lo as real, x);
    RoundHalfEvenMonotone(x, hi as real);
    RoundHalfEvenOfInteger(lo);
    RoundHalfEvenOfInteger(hi);
  }

  /** `round(x, places)` with `scale` = 10^places: the multiple of 1/scale
      nearest to `x`, ties to the even multiple. */
  function RoundPlaces(x: real, scale: nat): (r: real)
    requires scale >= 1
    ensures r * scale as real == RoundHalfEven(x * scale as real) as real
    ensures x * scale as real - 0.5 <= r * scale as real <= x * scale as real + 0.5
  {
    var n := RoundHalfEven(x * scale as real);
    var r := n as real / scale as real;
    assert r * scale as real == n as real;
    r
  }

  /** Rounding to a number of decimals never leaves an interval whose ends
      are multiples of 10^-places (given here multiplied by `scale`). */
  lemma RoundPlacesBetween(x: real, scale: nat, lo: int, hi: int)
    requires scale >= 1
    requires lo as real <= x * scale as real <= hi as real
    ensures lo as real <= RoundPlaces(x, scale) * scale as real <= hi as real
  {
    RoundHalfEvenBetween(x * scale as real, lo, hi);
  }

  /** Python's `int()` of a float: truncation toward zero. */
  function TruncToInt(x: real): (n: int)
    ensures 0.0 <= x ==> 0 <= n && n as real <= x < n as real + 1.0
    ensures x < 0.0 ==> n <= 0 && n as real - 1.0 < x <= n as real
  {
    if x >= 0.0 then x.Floor else -((-x).Floor)
  }

  /** Python's `max(lo, min(hi, x))`. */
  function Clamp(x: real, lo: real, hi: real): (r: real)
    requires lo <= hi
    ensures lo <= r <= hi
    ensures lo <= x <= hi ==> r == x
    ensures x < lo ==> r == lo
    ensures hi < x ==> r == hi
  {
    var upper := if hi < x then hi else x;
    if lo < upper then upper else lo
  }
}
