/** The Euclidean length `numpy.linalg.norm` computes for the difference of two
    pixel positions. The square root is foreign code: it enters the model as a
    parameter `norm`, constrained by `IsEuclidean` to be the non-negative square
    root of x*x + y*y. */
module LinAlg {
  import opened Reals

  /** The length of a difference vector (x, y). */
  type Norm2 = (real, real) -> real

  /** `norm(x, y)` is the non-negative real whose square is x*x + y*y. */
  ghost predicate IsEuclidean(norm: Norm2)
  {
    forall x: real, y: real {:trigger Sq(norm(x, y))} :: 0.0 <= norm(x, y) && Sq(norm(x, y)) == Sq(x) + Sq(y)
  }

  /** `numpy.linalg.norm(numpy.array(p) - numpy.array(q))` for integer pixels. */
  function Distance(norm: Norm2, p: (int, int), q: (int, int)): real
  {
    norm((p.0 - q.0) as real, (p.1 - q.1) as real)
  }

  /** The norm vanishes exactly on the zero vector. */
  lemma NormZero(norm: Norm2, x: real, y: real)
    requires IsEuclidean(norm)
    ensures norm(x, y) == 0.0 <==> x == 0.0 && y == 0.0
  {
    SquareSign(x);
    SquareSign(y);
    SquareSign(norm(x, y));
  }

  /** The distance is a length: never negative, zero exactly between equal
      points, and the same in both directions. */
  lemma DistanceIsMetric(norm: Norm2, p: (int, int), q: (int, int))
    requires IsEuclidean(norm)
    ensures 0.0 <= Distance(norm, p, q)
    ensures Distance(norm, p, q) == 0.0 <==> p == q
    ensures Distance(norm, p, q) == Distance(norm, q, p)
  {
    var x, y := (p.0 - q.0) as real, (p.1 - q.1) as real;
    NormZero(norm, x, y);
    assert (q.0 - p.0) as real == -x && (q.1 - p.1) as real == -y;
    SquareOfNegation(x);
    SquareOfNegation(y);
    SquareSign(norm(x, y));
    SquareSign(norm(-x, -y));
    RootUnique(norm(x, y), norm(-x, -y));
  }
}
