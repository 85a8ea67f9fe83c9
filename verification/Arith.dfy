/** Facts about integer multiplication and division used across the models. */
module Arith {
  function Max(a: int, b: int): int { if a >= b then a else b }

  function Min(a: int, b: int): int { if a <= b then a else b }

  lemma MulMono(a: nat, b: nat, d: nat)
    requires a <= b
    ensures a * d <= b * d
  {
  }

  lemma MulAssoc(a: nat, b: nat, c: nat)
    ensures a * (b * c) == (a * b) * c
  {
  }

  /** Quotient and remainder are unique. */
  lemma DivUnique(x: nat, d: nat, q: nat, r: nat)
    requires d >= 1 && r < d && x == q * d + r
    ensures x / d == q && x % d == r
  {
    var q', r' := x / d, x % d;
    assert x == q' * d + r';
    if q' < q {
      MulMono(q' + 1, q, d);
    } else if q < q' {
      MulMono(q + 1, q', d);
    }
  }

  lemma DivOffset(q: nat, d: nat, k: nat)
    requires d >= 1
    ensures (q * d + k) / d == q + k / d
    ensures (q * d + k) % d == k % d
  {
    assert k == (k / d) * d + k % d;
    assert (q + k / d) * d == q * d + (k / d) * d;
    DivUnique(q * d + k, d, q + k / d, k % d);
  }

  lemma DivBound(x: nat, n: nat, d: nat)
    requires d >= 1 && x < n * d
    ensures x / d < n
  {
    if x / d >= n {
      MulMono(n, x / d, d);
    }
  }

  lemma Distribute(a: nat, b: nat, c: nat)
    ensures (a + b) * c == a * c + b * c
  {
  }

  lemma Nested(a: nat, b: nat, q: nat, r: nat, r': nat)
    requires a >= 1 && b >= 1 && r < a && r' < b
    ensures (q * b + r') * a + r == q * (a * b) + (r' * a + r)
    ensures r' * a + r < a * b
  {
    Distribute(q * b, r', a);
    MulAssoc(q, b, a);
    MulMono(r' + 1, b, a);
    Distribute(r', 1, a);
  }

  lemma DivDiv(x: nat, a: nat, b: nat)
    requires a >= 1 && b >= 1
    ensures a * b >= 1 && x / a / b == x / (a * b)
  {
    Nested(a, b, x / a / b, x % a, x / a % b);
    assert x == (x / a) * a + x % a;
    assert x / a == (x / a / b) * b + x / a % b;
    DivUnique(x, a * b, x / a / b, (x / a % b) * a + x % a);
  }
}
