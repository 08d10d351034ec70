/** Conversion of a real quotient to an integer the way Swift's `Int(_:)`
    initializer converts a finite floating-point value: the fractional part
    is discarded, i.e. the value is rounded toward zero (not toward minus
    infinity). */
module Truncation {

  /** Rounds `x` toward zero. On non-negative values this is `x.Floor`;
      on negative non-integral values it is one more (see
      `TruncAboveFloorOnNegative`). */
  function Trunc(x: real): (t: int)
    ensures 0.0 <= x ==> 0 <= t && t as real <= x < t as real + 1.0
    ensures x < 0.0 ==> t <= 0 && t as real - 1.0 < x <= t as real
  {
    if 0.0 <= x then x.Floor else -((-x).Floor)
  }

  /** A non-negative value lying in `[n, n + 1)` truncates to `n`. */
  lemma TruncOfNonNegative(x: real, n: int)
    requires 0 <= n
    requires n as real <= x < n as real + 1.0
    ensures Trunc(x) == n
  {
    var t := Trunc(x);
    assert t as real <= x < t as real + 1.0;
  }

  /** On negative non-integral values truncation is one more than flooring. */
  lemma TruncAboveFloorOnNegative(x: real)
    requires x < 0.0
    requires x != x.Floor as real
    ensures Trunc(x) == x.Floor + 1
  {
    var t := Trunc(x);
    assert t as real - 1.0 < x <= t as real;
  }
}
