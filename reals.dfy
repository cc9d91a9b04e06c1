/** Facts about real multiplication and division that the solver does not
    find on its own. */
module Reals {

  function Sq(x: real): real { x * x }

  lemma SquareMonotone(a: real, b: real)
    requires 0.0 <= a < b
    ensures Sq(a) < Sq(b)
  {
    var aa, ab, bb := a * a, a * b, b * b;
    assert aa <= ab;
    assert ab < bb;
  }

  lemma SquareOfNegation(x: real)
    ensures Sq(-x) == Sq(x)
  {
  }

  /** A square is never negative, and is zero only for zero. */
  lemma SquareSign(x: real)
    ensures 0.0 <= Sq(x)
    ensures Sq(x) == 0.0 <==> x == 0.0
  {
    if x != 0.0 {
      SquareMonotone(0.0, if 0.0 < x then x else -x);
      SquareOfNegation(x);
    }
  }

  /** A non-negative square root is unique. */
  lemma RootUnique(a: real, b: real)
    requires 0.0 <= a && 0.0 <= b && Sq(a) == Sq(b)
    ensures a == b
  {
    if a < b {
      SquareMonotone(a, b);
    } else if b < a {
      SquareMonotone(b, a);
    }
  }

  /** Scaling by a positive factor keeps order and equality. */
  lemma ScaleCompare(q: real, c: real, n: real)
    requires 0.0 < n
    ensures q < c <==> q * n < c * n
    ensures q == c <==> q * n == c * n
  {
    if q < c {
      assert (c - q) * n == c * n - q * n;
    } else if c < q {
      assert (q - c) * n == q * n - c * n;
    }
  }

  /** Comparing a quotient by a positive divisor with c is comparing the
      dividend with c times the divisor. */
  lemma QuotientCompare(d: real, c: real, n: real)
    requires 0.0 < n
    ensures d / n < c <==> d < c * n
    ensures d / n == c <==> d == c * n
  {
    ScaleCompare(d / n, c, n);
    assert d / n * n == d;
  }

  /** A fraction x in [0, 1] of a non-negative n lies in [0, n]. */
  lemma ScaleWithin(x: real, n: real)
    ensures 0.0 <= x <= 1.0 && 0.0 <= n ==> 0.0 <= x * n <= n
  {
    if 0.0 <= x <= 1.0 && 0.0 < n {
      ScaleCompare(x, 1.0, n);
      ScaleCompare(0.0, x, n);
    }
  }

  lemma SelfQuotient(x: real)
    requires x != 0.0
    ensures x / x == 1.0
  {
  }

  /** The sign of `d / n` for positive `n`, and its bound when |d| <= n. */
  lemma QuotientSign(d: real, n: real)
    requires 0.0 < n
    ensures d / n == 0.0 <==> d == 0.0
    ensures 0.0 < d / n <==> 0.0 < d
    ensures -n <= d <= n ==> -1.0 <= d / n <= 1.0
  {
    QuotientCompare(d, 0.0, n);
    QuotientCompare(d, 1.0, n);
    QuotientCompare(d, -1.0, n);
  }
}
