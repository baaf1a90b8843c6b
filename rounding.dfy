/**
 * Rounding an exact ratio to one decimal place, the two ways the system does it:
 * Python's round(x, 1) on the server (ties go to the even tenth) and
 * JavaScript's Number.prototype.toFixed(1) in the browser (ties go away from zero).
 * Values are exact reals; binary floating point is not modelled.
 */
module Rounding {

  /** n is an integer closest to x. */
  predicate Nearest(x: real, n: int) {
    x - 0.5 <= n as real <= x + 0.5
  }

  /** x lies exactly half way between two integers. */
  predicate IsTie(x: real) {
    x - x.Floor as real == 0.5
  }

  /** The integer closest to x; of two equally close, the even one. */
  function RoundHalfEven(x: real): (n: int)
    ensures Nearest(x, n)
    ensures IsTie(x) ==> n % 2 == 0
    ensures !IsTie(x) ==> -0.5 < n as real - x < 0.5
  {
    var f := x.Floor;
    var frac := x - f as real;
    if frac < 0.5 then f
    else if frac > 0.5 then f + 1
    else if f % 2 == 0 then f
    else f + 1
  }

  /** The integer closest to x; of two equally close, the one farther from zero. */
  function RoundHalfAway(x: real): (n: int)
    ensures Nearest(x, n)
    ensures IsTie(x) && x > 0.0 ==> n as real == x + 0.5
    ensures IsTie(x) && x < 0.0 ==> n as real == x - 0.5
    ensures !IsTie(x) ==> -0.5 < n as real - x < 0.5
  {
    var f := x.Floor;
    var frac := x - f as real;
    if frac < 0.5 then f
    else if frac > 0.5 then f + 1
    else if x > 0.0 then f + 1
    else f
  }

  /** x is a whole number of tenths. */
  predicate IsTenths(x: real) {
    (x * 10.0).Floor as real == x * 10.0
  }

  /** round(x, 1) in Python. */
  function PyRound1(x: real): (r: real)
    ensures IsTenths(r)
    ensures -0.05 <= r - x <= 0.05
  {
    var n := RoundHalfEven(x * 10.0);
    TenthsOf(n, x);
    n as real / 10.0
  }

  /** (x).toFixed(1) in JavaScript, read back as a number. */
  function JsToFixed1(x: real): (r: real)
    ensures IsTenths(r)
    ensures -0.05 <= r - x <= 0.05
  {
    var n := RoundHalfAway(x * 10.0);
    TenthsOf(n, x);
    n as real / 10.0
  }

  /** n tenths, for n a nearest integer to ten times x, is within 0.05 of x. */
  lemma TenthsOf(n: int, x: real)
    requires Nearest(x * 10.0, n)
    ensures IsTenths(n as real / 10.0)
    ensures -0.05 <= n as real / 10.0 - x <= 0.05
  {
    assert n as real / 10.0 * 10.0 == n as real;
    assert n as real / 10.0 - x == (n as real - x * 10.0) / 10.0;
  }

  /** Any rounding to a nearest integer is monotone. */
  lemma NearestMonotone(x: real, y: real, m: int, n: int)
    requires x <= y && Nearest(x, m) && Nearest(y, n)
    requires x == y ==> m == n
    ensures m <= n
  {
  }

  /** An integral value is its own nearest integer. */
  lemma NearestOfInteger(k: int, n: int)
    requires Nearest(k as real, n)
    ensures n == k
  {
  }

  lemma {:induction false} PyRound1Monotone(x: real, y: real)
    requires x <= y
    ensures PyRound1(x) <= PyRound1(y)
  {
    NearestMonotone(x * 10.0, y * 10.0, RoundHalfEven(x * 10.0), RoundHalfEven(y * 10.0));
  }

  lemma {:induction false} JsToFixed1Monotone(x: real, y: real)
    requires x <= y
    ensures JsToFixed1(x) <= JsToFixed1(y)
  {
    NearestMonotone(x * 10.0, y * 10.0, RoundHalfAway(x * 10.0), RoundHalfAway(y * 10.0));
  }

  /** A value that already has one decimal place is left alone. */
  lemma {:induction false} PyRound1OfTenths(x: real)
    requires IsTenths(x)
    ensures PyRound1(x) == x
  {
    NearestOfInteger((x * 10.0).Floor, RoundHalfEven(x * 10.0));
  }

  lemma {:induction false} JsToFixed1OfTenths(x: real)
    requires IsTenths(x)
    ensures JsToFixed1(x) == x
  {
    NearestOfInteger((x * 10.0).Floor, RoundHalfAway(x * 10.0));
  }

  /** Both roundings keep a non-negative value non-negative. */
  lemma {:induction false} RoundingsKeepSign(x: real)
    requires x >= 0.0
    ensures PyRound1(x) >= 0.0 && JsToFixed1(x) >= 0.0
  {
    PyRound1Monotone(0.0, x);
    JsToFixed1Monotone(0.0, x);
    PyRound1OfTenths(0.0);
    JsToFixed1OfTenths(0.0);
  }

  /**
   * Server and browser agree except where x lies exactly half way between two
   * tenths; there they differ by one tenth, as at x = 0.25 (0.2 against 0.3).
   */
  lemma {:induction false} RoundingsAgreeOffTies(x: real)
    ensures !IsTie(x * 10.0) ==> PyRound1(x) == JsToFixed1(x)
    ensures IsTie(x * 10.0) && x > 0.0 ==> JsToFixed1(x) - PyRound1(x) in {0.0, 0.1}
    ensures -0.1 <= JsToFixed1(x) - PyRound1(x) <= 0.1
  {
    var a, b := RoundHalfEven(x * 10.0), RoundHalfAway(x * 10.0);
    if !IsTie(x * 10.0) {
      assert a == b;
    }
  }

  lemma RoundingsDifferAtQuarter()
    ensures PyRound1(0.25) == 0.2 && JsToFixed1(0.25) == 0.3
  {
    assert (2.5).Floor == 2;
  }
}
