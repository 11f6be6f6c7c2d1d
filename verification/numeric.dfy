/** Conversions between the engine's floats and integers. */
module Numeric {

  /**
   * C's float-to-int conversion, which truncates toward zero.  Dafny's
   * `Floor` rounds down, so negative values are handled separately.
   */
  function Trunc(r: real): (n: int)
    ensures 0.0 <= r ==> 0 <= n && n as real <= r < n as real + 1.0
    ensures r < 0.0 ==> n <= 0 && n as real - 1.0 < r <= n as real
  {
    if r >= 0.0 then r.Floor else -((-r).Floor)
  }

  /** C's `fabs`: the magnitude of a float. */
  function Fabs(r: real): (a: real)
    ensures a >= 0.0 && (a == r || a == -r)
  {
    if r >= 0.0 then r else -r
  }

  /** Truncation toward zero keeps the order of its arguments. */
  lemma TruncMonotone(a: real, b: real)
    requires a <= b
    ensures Trunc(a) <= Trunc(b)
  {
  }

  /** Truncation never moves a value away from zero. */
  lemma TruncTowardZero(r: real)
    ensures -r <= Trunc(r) as real <= r || r <= Trunc(r) as real <= -r
  {
  }

  /** Converting an integer to a float and back gives the integer. */
  lemma TruncOfInt(n: int)
    ensures Trunc(n as real) == n
  {
  }
}
