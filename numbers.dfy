/** JavaScript's `Math.round` applied to an exact quotient of integers. */
module Numbers {

  /**
   * `q` is `Math.round(a / n)` for `n > 0`: the integer nearest to `a / n`,
   * a half rounded up (towards positive infinity).
   */
  predicate IsRoundHalfUp(q: int, a: int, n: int) {
    2 * n * q - n <= 2 * a < 2 * n * q + n
  }

  function RoundHalfUp(a: int, n: int): (q: int)
    requires n > 0
    ensures IsRoundHalfUp(q, a, n)
  {
    var x, d := 2 * a + n, 2 * n;
    assert x == d * (x / d) + x % d;
    x / d
  }

  /** Math.round has only one possible answer. */
  lemma RoundHalfUpUnique(q1: int, q2: int, a: int, n: int)
    requires n > 0 && IsRoundHalfUp(q1, a, n) && IsRoundHalfUp(q2, a, n)
    ensures q1 == q2
  {
    if q1 < q2 {
      MulAtLeast(n, q2 - q1);
    } else if q2 < q1 {
      MulAtLeast(n, q1 - q2);
    }
  }

  lemma MulAtLeast(n: int, k: int)
    requires n > 0 && k >= 1
    ensures n * k >= n
  {
  }

  /** Rounding a quotient of values in [0, n*m] stays in [0, m]. */
  lemma RoundHalfUpBounds(a: int, n: int, lo: int, hi: int)
    requires n > 0 && n * lo <= a <= n * hi
    ensures lo <= RoundHalfUp(a, n) <= hi
  {
    var q := RoundHalfUp(a, n);
    if q > hi {
      MulAtLeast(n, q - hi);
    } else if q < lo {
      MulAtLeast(n, lo - q);
    }
  }
}
