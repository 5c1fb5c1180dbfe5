/** Facts about products and rounded-down quotients. */
module Division {
  lemma MulMono(a: nat, b: nat, c: nat)
    requires a <= b
    ensures a * c <= b * c
  {}

  lemma MulStrict(a: nat, b: nat, c: nat)
    requires a < b && 0 < c
    ensures a * c < b * c
  {}

  /** `q` is the rounded-down quotient exactly when `q*d <= a < (q+1)*d`. */
  lemma DivIs(a: nat, d: nat, q: nat)
    requires 0 < d && q * d <= a < (q + 1) * d
    ensures a / d == q
  {
    if a / d > q {
      MulMono(q + 1, a / d, d);
    } else if a / d < q {
      MulMono(a / d + 1, q, d);
    }
  }

  lemma DivMono(a: nat, b: nat, d: nat)
    requires 0 < d && a <= b
    ensures a / d <= b / d
  {
    if b / d < a / d {
      MulMono(b / d + 1, a / d, d);
    }
  }

  lemma DivAddMultiple(k: nat, a: nat, d: nat)
    requires 0 < d
    ensures (k * d + a) / d == k + a / d
  {
    DivIs(k * d + a, d, k + a / d);
  }
}
