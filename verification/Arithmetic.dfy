/** Multiplication and division facts that the timing modules share. */
module Arithmetic {

  lemma MulMono(k: nat, a: int, b: int)
    requires a <= b
    ensures k * a <= k * b
  {
  }

  lemma MulLess(k: nat, a: int, b: int)
    requires k * a < k * b
    ensures a < b
  {
    if b <= a { MulMono(k, b, a); }
  }

  lemma Quotient(a: int, b: nat)
    requires b > 0
    ensures b * (a / b) <= a < b * (a / b + 1)
  {
  }

  lemma QuotientBounds(a: int, b: nat, lo: int, hi: int)
    requires b > 0 && b * lo <= a < b * hi
    ensures lo <= a / b < hi
  {
    Quotient(a, b);
    MulLess(b, lo, a / b + 1);
    MulLess(b, a / b, hi);
  }

  lemma QuotientNat(a: nat, b: nat)
    requires b > 0
    ensures a / b >= 0
  {
    Quotient(a, b);
    MulLess(b, 0, a / b + 1);
  }

  /** A common factor cancels. */
  lemma CancelFactor(k: nat, a: nat, b: nat)
    requires k > 0 && b > 0
    ensures k * b > 0 && (k * a) / (k * b) == a / b
  {
    var q := a / b;
    Quotient(a, b);
    assert k * b > 0 by { MulMono(k, 1, b); }
    MulMono(k, b * q, a);
    MulMono(k, a + 1, b * (q + 1));
    assert k * (b * q) == (k * b) * q && k * (b * (q + 1)) == (k * b) * (q + 1);
    assert k * (a + 1) == k * a + k;
    QuotientBounds(k * a, k * b, q, q + 1);
  }
}
