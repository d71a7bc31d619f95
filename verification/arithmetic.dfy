/** Small facts of non-linear arithmetic used by the sampling and scaling proofs. */
module Arithmetic {

  /** `n * a <= n * b` for `a <= b` and positive `n`. */
  lemma MulMonotone(n: int, a: int, b: int)
    requires n > 0 && a <= b
    ensures n * a <= n * b
  {
    assert n * b == n * a + n * (b - a);
  }

  /** Integer division by a positive count keeps a value bracketed by
      `n * lo` and `n * hi` between `lo` and `hi`. */
  lemma DivBetween(sum: int, n: int, lo: int, hi: int)
    requires n > 0 && n * lo <= sum <= n * hi
    ensures lo <= sum / n <= hi
  {
    var q, r := sum / n, sum % n;
    assert sum == n * q + r && 0 <= r < n;
    if q < lo {
      MulMonotone(n, q + 1, lo);
      assert false;
    }
    if q > hi {
      MulMonotone(n, hi + 1, q);
      assert false;
    }
  }

  /** Integer division by a positive constant is monotone. */
  lemma DivMonotone(a: int, b: int, n: int)
    requires 0 <= a <= b && n > 0
    ensures a / n <= b / n
  {
    var qa, qb := a / n, b / n;
    assert a == n * qa + a % n && b == n * qb + b % n;
    if qa > qb {
      MulMonotone(n, qb + 1, qa);
      assert false;
    }
  }

  /** Multiplying by a non-negative real is monotone. */
  lemma RealMulMonotone(a: real, b: real, c: real)
    requires a <= b && c >= 0.0
    ensures a * c <= b * c
  {
    assert b * c - a * c == (b - a) * c;
  }
}
