/** Python built-ins the tracker relies on: `None` for an unset attribute and
    `int()` applied to a float. */
module Builtins {

  /** An attribute that is either `None` or holds a value. */
  datatype Option<T> = None | Some(value: T)

  /** Python's `int(x)` for a float `x`: truncation toward zero (not rounding,
      not flooring). The result never moves away from zero and lies strictly
      within one unit of `x`. */
  function Trunc(x: real): int
  {
    if 0.0 <= x then x.Floor else -((-x).Floor)
  }

  /** `n` is `v` with its fractional part dropped toward zero. */
  predicate TruncatedTo(n: int, v: real)
  {
    (0.0 <= v ==> n as real <= v < n as real + 1.0) &&
    (v < 0.0 ==> n as real - 1.0 < v <= n as real)
  }

  lemma TruncTowardZero(x: real)
    ensures TruncatedTo(Trunc(x), x)
  {
  }

  /** A value in [0, n] truncates to an integer in [0, n]. */
  lemma TruncWithin(x: real, n: int)
    ensures 0.0 <= x <= n as real ==> 0 <= Trunc(x) <= n
  {
  }

  /** Truncation agrees with flooring exactly on non-negative inputs and on
      integers; on a negative non-integer it is one more than the floor. */
  lemma TruncVersusFloor(x: real)
    ensures Trunc(x) == x.Floor <==> 0.0 <= x || x.Floor as real == x
    ensures x < 0.0 && x.Floor as real != x ==> Trunc(x) == x.Floor + 1
  {
    if x < 0.0 {
      assert (-x).Floor as real <= -x < (-x).Floor as real + 1.0;
      assert x.Floor as real <= x < x.Floor as real + 1.0;
    }
  }
}
