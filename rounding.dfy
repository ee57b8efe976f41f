/** Rounding to the nearest integer, as `Math.round` and `toFixed` do it on
    the values this model meets: non-negative quotients of integers, and the
    recorder's exact frame ratios. */
module Rounding {

  /** `q` is `a / n` rounded to the nearest integer, halves up. */
  predicate NearestQuotient(q: int, a: int, n: int) {
    -n < 2 * (q * n - a) <= n
  }

  /** `a / n` rounded to the nearest integer, halves up, for `a >= 0`. */
  function RoundedQuotient(a: nat, n: nat): (q: nat)
    requires n > 0
    ensures NearestQuotient(q, a, n)
  {
    var q := (2 * a + n) / (2 * n);
    var m := (2 * a + n) % (2 * n);
    assert 2 * a + n == q * (2 * n) + m && 0 <= m < 2 * n;
    assert 2 * (q * n - a) == n - m by {
      assert q * (2 * n) == 2 * (q * n);
    }
    q
  }

  lemma MulAtLeast(d: int, n: int)
    requires d >= 1 && n >= 0
    ensures d * n >= n
  {
    assert d * n - n == (d - 1) * n;
  }

  /** There is only one nearest quotient. */
  lemma {:induction false} NearestQuotientUnique(p: int, q: int, a: int, n: int)
    requires n > 0 && NearestQuotient(p, a, n) && NearestQuotient(q, a, n)
    ensures p == q
  {
    if p > q {
      assert (p * n - a) - (q * n - a) == (p - q) * n;
      MulAtLeast(p - q, n);
    } else if p < q {
      assert (q * n - a) - (p * n - a) == (q - p) * n;
      MulAtLeast(q - p, n);
    }
  }

  /** An exact quotient is its own rounding. */
  lemma {:induction false} QuotientOfMultiple(k: nat, n: nat)
    requires n > 0
    ensures RoundedQuotient(n * k, n) == k
  {
    var q := RoundedQuotient(n * k, n);
    var e := q * n - n * k;
    assert -(n as int) < 2 * e <= n;
    assert e == (q - k) * n;
    if q > k {
      MulAtLeast(q - k, n);
    } else if q < k {
      MulAtLeast(k - q, n);
    }
  }

  /** Rounding a quotient never decreases as the dividend grows. */
  lemma {:induction false} QuotientMonotone(a: nat, b: nat, n: nat)
    requires n > 0 && a <= b
    ensures RoundedQuotient(a, n) <= RoundedQuotient(b, n)
  {
    var p, q := RoundedQuotient(a, n), RoundedQuotient(b, n);
    var e, f := p * n - a, q * n - b;
    assert -(n as int) < 2 * e <= n && -(n as int) < 2 * f <= n;
    if p > q {
      assert e - f == (p - q) * n + (b - a);
      MulAtLeast(p - q, n);
    }
  }

  /** `Math.round` on an exact real: the nearest integer, halves towards +infinity. */
  function Round(x: real): (n: int)
    ensures n as real - 0.5 <= x < n as real + 0.5
  {
    (x + 0.5).Floor
  }

  /** Rounding never decreases as its argument grows. */
  lemma RoundMonotone(x: real, y: real)
    requires x <= y
    ensures Round(x) <= Round(y)
  {
  }
}
