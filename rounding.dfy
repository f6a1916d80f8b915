/**
 * The two number conversions open_time and close_time apply to an elapsed
 * time in hours: Python's int(), which truncates toward zero, and Python's
 * one-argument round(), which rounds to the nearest integer and sends
 * exact halves to the even neighbour ("banker's rounding").
 */
module Rounding {

  /** Python int() on a number: truncation toward zero. */
  function Trunc(x: real): (n: int)
    ensures x >= 0.0 ==> n as real <= x < n as real + 1.0
    ensures x < 0.0 ==> n as real - 1.0 < x <= n as real
  {
    if x >= 0.0 then x.Floor else -((-x).Floor)
  }

  /** True when n is a nearest integer to x and, on a tie, the even one. */
  ghost predicate IsHalfEvenRounding(x: real, n: int)
  {
    && x - 0.5 <= n as real <= x + 0.5
    && ((n as real - x == 0.5 || x - n as real == 0.5) ==> n % 2 == 0)
  }

  /** Python round(x) with no digits argument. */
  function RoundHalfEven(x: real): (r: int)
    ensures x - 0.5 <= r as real <= x + 0.5
    ensures (r as real - x == 0.5 || x - r as real == 0.5) ==> r % 2 == 0
  {
    var f := x.Floor;
    var frac := x - f as real;
    if frac < 0.5 then f
    else if frac > 0.5 then f + 1
    else if f % 2 == 0 then f
    else f + 1
  }

  /** The two properties in RoundHalfEven's contract pin the result down. */
  lemma RoundHalfEvenUnique(x: real, n: int)
    requires IsHalfEvenRounding(x, n)
    ensures n == RoundHalfEven(x)
  {
  }

  /** Rounding never reverses the order of two numbers. */
  lemma RoundHalfEvenMonotone(x: real, y: real)
    requires x <= y
    ensures RoundHalfEven(x) <= RoundHalfEven(y)
  {
  }

  /** An integer rounds to itself. */
  lemma RoundHalfEvenOfInt(n: int)
    ensures RoundHalfEven(n as real) == n
  {
    RoundHalfEvenUnique(n as real, n);
  }

  /** Adding an even integer commutes with rounding (an odd one would flip ties). */
  lemma RoundHalfEvenShiftEven(x: real, k: int)
    ensures RoundHalfEven(x + (2 * k) as real) == RoundHalfEven(x) + 2 * k
  {
    var r := RoundHalfEven(x);
    assert (r + 2 * k) % 2 == r % 2;
    RoundHalfEvenUnique(x + (2 * k) as real, r + 2 * k);
  }

  /** A number at most the integer n rounds to at most n. */
  lemma RoundHalfEvenAtMost(x: real, n: int)
    requires x <= n as real
    ensures RoundHalfEven(x) <= n
  {
    RoundHalfEvenMonotone(x, n as real);
    RoundHalfEvenOfInt(n);
  }

  /** A number at least the integer n rounds to at least n. */
  lemma RoundHalfEvenAtLeast(x: real, n: int)
    requires n as real <= x
    ensures n <= RoundHalfEven(x)
  {
    RoundHalfEvenMonotone(n as real, x);
    RoundHalfEvenOfInt(n);
  }

  /**
   * The sources split elapsed hours t into int(t) whole hours and
   * round((t - int(t)) * 60) minutes. Because 60 is even, the total is the
   * same as rounding the whole elapsed time in minutes.
   */
  lemma SplitIsRounding(t: real)
    ensures 60 * Trunc(t) + RoundHalfEven((t - Trunc(t) as real) * 60.0) == RoundHalfEven(60.0 * t)
  {
    var h := Trunc(t);
    assert 60.0 * t == (t - h as real) * 60.0 + (2 * (30 * h)) as real;
    RoundHalfEvenShiftEven((t - h as real) * 60.0, 30 * h);
  }
}
