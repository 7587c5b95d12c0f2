/**
 * Monetary arithmetic on exact reals: absolute value and Python's `round(x, 2)`,
 * modelled as round-half-to-even of the exact value to hundredths.
 */
module Money {

  function Abs(x: real): (r: real)
    ensures r >= 0.0
    ensures r == x || r == -x
  {
    if x < 0.0 then -x else x
  }

  /** Rounds to the nearest integer; a tie goes to the even neighbour. */
  function RoundHalfEven(y: real): (n: int)
    ensures n as real - 0.5 <= y <= n as real + 0.5
    ensures y == y.Floor as real ==> n == y.Floor
    ensures y - y.Floor as real == 0.5 ==> n % 2 == 0
  {
    var f := y.Floor;
    var d := y - f as real;
    if d < 0.5 then f
    else if d > 0.5 then f + 1
    else if f % 2 == 0 then f
    else f + 1
  }

  /** `round(x, 2)`: a whole number of hundredths, at most half a hundredth away. */
  function Round2(x: real): (r: real)
    ensures r * 100.0 == (r * 100.0).Floor as real
    ensures x - 0.005 <= r <= x + 0.005
  {
    var n := RoundHalfEven(x * 100.0);
    var r := n as real / 100.0;
    assert r * 100.0 == n as real && (n as real).Floor == n;
    assert x - 0.005 <= r <= x + 0.005 by {
      assert x * 100.0 - 0.5 <= n as real <= x * 100.0 + 0.5;
    }
    r
  }

  /** A value already in whole hundredths is left unchanged. */
  lemma Round2Exact(cents: int)
    ensures Round2(cents as real / 100.0) == cents as real / 100.0
  {
    var x := cents as real / 100.0;
    assert x * 100.0 == cents as real;
    assert (x * 100.0).Floor == cents;
  }

  /** Rounding moves a value by at most half a hundredth. */
  lemma Round2Error(x: real)
    ensures Abs(Round2(x) - x) <= 0.005
  {
    var n := RoundHalfEven(x * 100.0);
    assert n as real - 0.5 <= x * 100.0 <= n as real + 0.5;
    assert Round2(x) * 100.0 == n as real;
  }

  /** Rounding twice is rounding once. */
  lemma Round2Idempotent(x: real)
    ensures Round2(Round2(x)) == Round2(x)
  {
    Round2Exact(RoundHalfEven(x * 100.0));
  }

  /** Rounding never lifts a value above a whole number of hundredths it does not exceed. */
  lemma Round2AtMost(x: real, cents: int)
    requires x <= cents as real / 100.0
    ensures Round2(x) <= cents as real / 100.0
  {
    var y := x * 100.0;
    assert y <= cents as real;
    var n := RoundHalfEven(y);
    if y.Floor == cents {
      assert y == cents as real;
    }
    assert n <= cents;
    assert Round2(x) == n as real / 100.0;
  }
}
