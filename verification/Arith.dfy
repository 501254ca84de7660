/** Facts about products and quotients of integers that the layouts rest on. */
module Arith {

  lemma MulMonotone(a: int, b: int, n: int)
    requires a <= b && n >= 0
    ensures a * n <= b * n
  {
    assert b * n - a * n == (b - a) * n;
  }

  lemma Multiple(k: int, n: int)
    requires k > 0
    ensures (k * n) % k == 0 && (k * n) / k == n
  {
    var q, m := (k * n) / k, (k * n) % k;
    assert k * n == k * q + m;
    assert k * (n - q) == m;
    if n > q {
      MulMonotone(1, n - q, k);
    }
  }

  /** Distinct multiples of `d` are at least `d` apart. */
  lemma MultiplesApart(x: int, y: int, d: int)
    requires d > 0 && x % d == 0 && y % d == 0 && x < y
    ensures x + d <= y
  {
    var p, q := x / d, y / d;
    assert x == p * d && y == q * d;
    if p >= q {
      MulMonotone(q, p, d);
    }
    MulMonotone(p + 1, q, d);
    assert (p + 1) * d == p * d + d;
  }

  /** Quotient and remainder are unique. */
  lemma DivModIs(x: int, d: int, q: int, m: int)
    requires d > 0 && x == d * q + m && 0 <= m < d
    ensures x / d == q && x % d == m
  {
    var p, k := x / d, x % d;
    assert x == d * p + k;
    assert d * (p - q) == m - k;
    if p > q {
      MulMonotone(1, p - q, d);
    } else if p < q {
      MulMonotone(1, q - p, d);
    }
  }

  /** `q` is the whole number of times `d` fits into `x`. */
  lemma QuotientIs(x: int, d: int, q: int)
    requires d > 0 && x >= 0
    ensures x / d == q <==> q * d <= x < (q + 1) * d
  {
    var p := x / d;
    assert p * d <= x < (p + 1) * d;
    if q * d <= x < (q + 1) * d {
      if p < q {
        MulMonotone(p + 1, q, d);
      } else if q < p {
        MulMonotone(q + 1, p, d);
      }
    }
  }

  /** Rounding up: the least `q` whose `d`-fold reaches `x`. */
  function CeilDiv(x: int, d: int): int
    requires d > 0
  {
    (x + d - 1) / d
  }

  lemma CeilDivAtMost(x: int, d: int, a: int)
    requires d > 0 && x >= 0
    ensures CeilDiv(x, d) <= a <==> x <= a * d
  {
    var q := CeilDiv(x, d);
    assert q * d <= x + d - 1 < (q + 1) * d;
    if q <= a {
      MulMonotone(q, a, d);
      assert (q + 1) * d == q * d + d;
    } else {
      MulMonotone(a + 1, q, d);
      assert (a + 1) * d == a * d + d;
    }
  }

  lemma CeilDivCovers(n: nat, d: nat)
    requires d > 0
    ensures CeilDiv(n, d) >= 0 && n <= CeilDiv(n, d) * d < n + d
  {
    var q := CeilDiv(n, d);
    assert n + d - 1 == d * q + (n + d - 1) % d;
    assert d * q == q * d;
  }
}
