/** Decimal rounding, the model of Python's `round(x, n)`.

    The source rounds binary floats; here values are exact reals, so `Round`
    rounds the exact value to the nearest multiple of 10^-n and breaks an exact
    tie towards the even neighbour, as Python's `round` does. */
module Rounding {

  /** 10^n as a real. */
  function Scale(n: nat): (s: real)
    ensures s >= 1.0
  {
    if n == 0 then 1.0 else 10.0 * Scale(n - 1)
  }

  /** The integer nearest to `y`, ties to the even integer. */
  function NearestInt(y: real): (m: int)
    ensures y - 0.5 <= m as real <= y + 0.5
  {
    var f := y.Floor;
    var d := y - f as real;
    if d < 0.5 then f
    else if d > 0.5 then f + 1
    else if f % 2 == 0 then f
    else f + 1
  }

  /** `x` shifted `n` decimal digits to the left. */
  function Shifted(x: real, n: nat): real
  {
    x * Scale(n)
  }

  /** `round(x, n)`: `x` rounded to `n` decimal digits. */
  function Round(x: real, n: nat): real
  {
    NearestInt(Shifted(x, n)) as real / Scale(n)
  }

  lemma ShiftedBack(x: real, n: nat)
    ensures Shifted(x, n) / Scale(n) == x
  {
  }

  /** Rounding moves a value by at most half a unit in its last digit. */
  lemma RoundError(x: real, n: nat)
    ensures x - 0.5 / Scale(n) <= Round(x, n) <= x + 0.5 / Scale(n)
  {
    var y := Shifted(x, n);
    ShiftedBack(x, n);
    QuotientBound(y, NearestInt(y) as real, Scale(n), x);
  }

  lemma QuotientBound(y: real, m: real, s: real, x: real)
    requires y - 0.5 <= m <= y + 0.5 && s > 0.0 && y / s == x
    ensures x - 0.5 / s <= m / s <= x + 0.5 / s
  {
    assert m / s - x == (m - y) / s;
    assert (m - y) / s <= 0.5 / s by { assert 0.5 / s - (m - y) / s == (0.5 - (m - y)) / s; }
    assert -(0.5 / s) <= (m - y) / s by { assert (m - y) / s + 0.5 / s == ((m - y) + 0.5) / s; }
  }

  lemma NearestIntSmall(y: real)
    requires 0.0 <= y < 0.5
    ensures NearestInt(y) == 0
  {
    assert y.Floor == 0;
  }

  /** Rounding never makes a non-negative value negative. */
  lemma RoundNonNegative(x: real, n: nat)
    requires x >= 0.0
    ensures Round(x, n) >= 0.0
  {
    assert Shifted(x, n) >= 0.0;
  }

  /** A non-negative value below half a unit in the last digit rounds to zero. */
  lemma RoundSmall(x: real, n: nat)
    requires 0.0 <= x && Shifted(x, n) < 0.5
    ensures Round(x, n) == 0.0
  {
    assert Shifted(x, n) >= 0.0;
    NearestIntSmall(Shifted(x, n));
  }
}
