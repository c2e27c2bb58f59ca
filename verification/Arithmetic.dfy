/** Products and quotients of naturals. */
module Arithmetic {

  lemma MulMono(p: nat, a: nat, b: nat)
    requires a <= b
    ensures p * a <= p * b
  {}

  lemma MulMonoLeft(p: nat, d: nat, a: nat)
    requires p <= d
    ensures p * a <= d * a
  {}

  lemma MulCancel(t: int, a: int, b: int)
    requires t > 0 && t * a < t * b
    ensures a < b
  {}

  lemma Distribute(a: int, b: int, c: int)
    ensures a * (b + c) == a * b + a * c
  {}

  lemma DivisionLaw(a: nat, d: nat)
    requires d > 0
    ensures a == d * (a / d) + a % d
  {}

  lemma QuotientTimes(a: nat, d: nat)
    requires d > 0
    ensures d * (a / d) <= a
  {}

  lemma QuotientAtLeast(a: nat, d: nat, k: nat)
    requires d > 0 && d * k <= a
    ensures k <= a / d
  {
    DivisionLaw(a, d);
    Distribute(d, a / d, 1);
    MulCancel(d, k, a / d + 1);
  }

  lemma Euclid(a: int, d: nat)
    requires d > 0
    ensures a == d * (a / d) + a % d && 0 <= a % d < d
  {}

  lemma MulAtLeast(d: nat, k: int)
    requires k >= 1
    ensures d * k >= d
  {}

  lemma MulMinus(d: int, a: int, b: int)
    ensures d * (a - b) == d * a - d * b
  {}

  /** Quotient and remainder are determined by their defining equation. */
  lemma DivisionUnique(a: int, d: nat, q: int, r: int)
    requires d > 0 && a == d * q + r && 0 <= r < d
    ensures a / d == q && a % d == r
  {
    var q' := a / d;
    Euclid(a, d);
    MulMinus(d, q', q);
    MulMinus(d, q, q');
    if q' > q {
      MulAtLeast(d, q' - q);
    } else if q' < q {
      MulAtLeast(d, q - q');
    }
  }

  lemma MulAssoc(a: int, b: int, c: int)
    ensures (a * b) * c == a * (b * c)
  {}

  lemma Rearrange(x: int, p: int, q: int, m: int, k: int, a: int, r: int)
    requires p * q == 1 + m * k && x * p == m * a + r
    ensures r * q == m * (x * k - a * q) + x
  {
    calc {
      r * q;
      (x * p - m * a) * q;
      (x * p) * q - (m * a) * q;
      { MulAssoc(x, p, q); MulAssoc(m, a, q); }
      x * (1 + m * k) - m * (a * q);
      { Distribute(x, 1, m * k); MulAssoc(x, m, k); MulAssoc(m, x, k); }
      x + m * (x * k) - m * (a * q);
      { MulMinus(m, x * k, a * q); }
      m * (x * k - a * q) + x;
    }
  }

  /** Multiplying by an inverse of `p` modulo `m` undoes a multiplication by `p`. */
  lemma InverseUndoes(x: int, p: int, q: int, m: nat, k: int)
    requires 0 <= x < m && p * q == 1 + m * k
    ensures (((x * p) % m) * q) % m == x
  {
    var a, r := (x * p) / m, (x * p) % m;
    Euclid(x * p, m);
    Rearrange(x, p, q, m, k, a, r);
    DivisionUnique(r * q, m, x * k - a * q, x);
  }

  /** Reducing one factor first does not change a product modulo `m`. */
  lemma ReduceFactor(x: int, y: int, m: nat)
    requires m > 0
    ensures ((x % m) * y) % m == (x * y) % m
  {
    var q, r := x / m, x % m;
    Euclid(x, m);
    Euclid(x * y, m);
    calc {
      r * y;
      (x - m * q) * y;
      x * y - (m * q) * y;
      { MulAssoc(m, q, y); }
      x * y - m * (q * y);
    }
    var q', r' := (x * y) / m, (x * y) % m;
    MulMinus(m, q', q * y);
    DivisionUnique(r * y, m, q' - q * y, r');
  }

  /** Products modulo `m` may be regrouped. */
  lemma Regroup(c: int, p: int, q: int, m: nat)
    requires m > 0
    ensures (c * ((p * q) % m)) % m == (((c * p) % m) * q) % m
  {
    ReduceFactor(p * q, c, m);
    ReduceFactor(c * p, q, m);
    MulAssoc(c, p, q);
  }
}
