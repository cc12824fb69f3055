/**
 * Python's `int()` applied to a float: the value is truncated toward zero.
 * Floats are modelled as exact reals.
 */
module PyInt {

  /** `int(r)`: the integer part of `r`, dropping the fraction toward zero. */
  function Trunc(r: real): int {
    if r >= 0.0 then r.Floor else -((-r).Floor)
  }

  /**
   * The integer part lies between zero and `r`, less than one away from `r`:
   * below `r` for non-negative values, above it for negative ones.
   */
  lemma TruncBounds(r: real)
    ensures 0.0 <= r ==> Trunc(r) as real <= r < Trunc(r) as real + 1.0
    ensures r < 0.0 ==> Trunc(r) as real - 1.0 < r <= Trunc(r) as real
    ensures (0.0 <= r ==> 0 <= Trunc(r)) && (r <= 0.0 ==> Trunc(r) <= 0)
  {
  }

  /** The two bounds in Trunc's contract pin down exactly one integer. */
  lemma TruncUnique(r: real, n: int)
    requires 0.0 <= r ==> n as real <= r < n as real + 1.0
    requires r < 0.0 ==> n as real - 1.0 < r <= n as real
    ensures n == Trunc(r)
  {
  }

  /** Truncation never moves a value across another: it is monotone. */
  lemma TruncMonotone(r: real, s: real)
    requires r <= s
    ensures Trunc(r) <= Trunc(s)
  {
    TruncBounds(r);
    TruncBounds(s);
  }

  /** A whole number survives `int()` unchanged. */
  lemma TruncOfWhole(k: int)
    ensures Trunc(k as real) == k
  {
  }

  /** Truncation toward zero commutes with negation (unlike flooring). */
  lemma TruncOdd(r: real)
    ensures Trunc(-r) == -Trunc(r)
  {
  }
}
