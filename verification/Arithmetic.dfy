/** Products and quotients of integers and of real numbers. */
module Arithmetic {

  lemma ProductGrows(a: int, b: int, d: int)
    requires a <= b && 0 <= d
    ensures a * d <= b * d
  {
  }

  /** A bound on a factor is a bound on the product, and conversely. */
  lemma ProductFits(n: int, d: int, limit: nat)
    requires 0 < d
    ensures n <= limit / d <==> n * d <= limit
  {
    var q, r := limit / d, limit % d;
    assert limit == q * d + r;
    if n <= q {
      ProductGrows(n, q, d);
    } else {
      ProductGrows(q + 1, n, d);
      assert (q + 1) * d == q * d + d;
    }
  }

  lemma PositiveFactor(a: int, d: int)
    requires 0 < d && 0 < a * d
    ensures 0 < a
  {
  }

  /** A quotient lies between the bounds its dividend lies between. */
  lemma DivisionBounds(n: int, d: int, low: int, high: int)
    requires 0 < d && low * d <= n <= high * d
    ensures low <= n / d <= high
  {
    var q, r := n / d, n % d;
    assert n == q * d + r;
    assert (q + 1 - low) * d == q * d + d - low * d;
    PositiveFactor(q + 1 - low, d);
    assert (high + 1 - q) * d == high * d + d - q * d;
    PositiveFactor(high + 1 - q, d);
  }

  lemma SmallModulo(n: nat, d: nat)
    requires 0 < d
    ensures 0 <= n % d < d && (n < d ==> n % d == n)
  {
  }

  lemma QuotientMonotone(m: int, n: int, d: int)
    requires m <= n && 0 < d
    ensures m / d <= n / d
  {
    var low, high := m / d, n / d + 1;
    assert m == low * d + m % d;
    assert n == n / d * d + n % d && high * d == n / d * d + d;
    DivisionBounds(n, d, low, high);
  }

  lemma QuotientIs(n: int, d: int, q: int)
    requires 0 < d && q * d <= n < q * d + d
    ensures n / d == q
  {
    var k := n / d;
    assert n == k * d + n % d;
    assert (q + 1 - k) * d == q * d + d - k * d;
    PositiveFactor(q + 1 - k, d);
    assert (k + 1 - q) * d == k * d + d - q * d;
    PositiveFactor(k + 1 - q, d);
  }

  lemma QuotientShift(n: int, k: int, d: int)
    requires 0 < d
    ensures (n + k * d) / d == n / d + k
  {
    assert n == n / d * d + n % d;
    assert (n / d + k) * d == n / d * d + k * d;
    QuotientIs(n + k * d, d, n / d + k);
  }

  lemma DivisionNonNegative(n: int, d: int)
    requires 0 <= n && 0 < d
    ensures 0 <= n / d
  {
  }

  lemma DivisionNoSmaller(n: int, q: int, d: int)
    requires 0 < d && q * d <= n
    ensures q <= n / d
  {
    QuotientMonotone(q * d, n, d);
    QuotientIs(q * d, d, q);
  }

  lemma NonNegative(a: real, b: real)
    requires 0.0 <= a && 0.0 <= b
    ensures 0.0 <= a * b
  {
  }

  lemma Positive(a: real, b: real)
    requires 0.0 < a && 0.0 < b
    ensures 0.0 < a * b
  {
  }

  lemma RatioBounds(n: real, d: real)
    requires 0.0 < d
    ensures n <= 0.0 ==> n / d <= 0.0
    ensures 0.0 <= n ==> 0.0 <= n / d
    ensures d <= n ==> 1.0 <= n / d
    ensures n <= d ==> n / d <= 1.0
  {
    var q := n / d;
    assert n == q * d;
    if q < 1.0 {
      Positive(1.0 - q, d);
    }
    if 1.0 < q {
      Positive(q - 1.0, d);
    }
    if q < 0.0 {
      Positive(-q, d);
    }
    if 0.0 < q {
      Positive(q, d);
    }
  }

  lemma RatioMonotone(m: real, n: real, d: real)
    requires m <= n && 0.0 < d
    ensures m / d <= n / d
  {
    var p, q := m / d, n / d;
    assert m == p * d && n == q * d;
    if q < p {
      Positive(p - q, d);
    }
  }

  lemma Shrinks(a: real, b: real)
    requires 0.0 <= a && 0.0 <= b <= 1.0
    ensures 0.0 <= a * b <= a
  {
    NonNegative(a, b);
    NonNegative(a, 1.0 - b);
    assert a * (1.0 - b) == a - a * b;
  }

  lemma ProductMonotone(a: real, b: real, share: real)
    requires a <= b && 0.0 <= share
    ensures a * share <= b * share
  {
  }
}
