/** Mixed-radix index arithmetic: a flat index a * n + r, and its digits. */
module Indices {
  lemma Before(r: nat, s: nat, d: nat)
    requires r <= s
    ensures r * d <= s * d
  {
  }

  lemma Spread(a: nat, b: nat, d: nat)
    ensures (a + b) * d == a * d + b * d
  {
  }

  lemma Digit(a: nat, n: nat, r: nat)
    requires r < n
    ensures (a * n + r) / n == a && (a * n + r) % n == r
  {
    DigitUnique(a * n + r, n, a, r);
  }

  lemma DigitUnique(x: nat, n: nat, a: nat, r: nat)
    requires r < n && x == a * n + r
    ensures x / n == a && x % n == r
  {
    SameQuotient(x / n, x % n, a, r, n);
  }

  lemma SameQuotient(q: nat, m: nat, a: nat, r: nat, n: nat)
    requires m < n && r < n && q * n + m == a * n + r
    ensures q == a && m == r
  {
    if q < a {
      Spread(q, 1, n);
      Before(q + 1, a, n);
    } else if a < q {
      Spread(a, 1, n);
      Before(a + 1, q, n);
    }
  }

  lemma Below(a: nat, b: nat, n: nat, r: nat)
    requires a < b && r < n
    ensures a * n + r < b * n
  {
    Before(a + 1, b, n);
    Spread(a, 1, n);
  }

  lemma QuotientBelow(y: nat, b: nat, n: nat)
    requires n > 0 && y < b * n
    ensures y / n < b
  {
    if b <= y / n {
      Before(b, y / n, n);
    }
  }

  lemma NonZero(b: nat, d: nat, z: nat)
    requires z < b * d
    ensures d > 0
  {
  }
}
