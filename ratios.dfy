/** Facts about quotients of reals shared by the rate-law bounds. */
module Ratios {

  /** A positive fraction a/d of a positive c lies strictly between 0 and c. */
  lemma FractionBelow(c: real, a: real, d: real)
    requires c > 0.0 && 0.0 < a < d
    ensures 0.0 < c * a / d < c
  {
    assert c * a < c * d;
    assert c * a / d < c * d / d;
  }

  /** A positive numerator over a larger positive denominator gives a smaller quotient. */
  lemma SmallerForLargerDenominator(n: real, d: real, d2: real)
    requires n > 0.0 && 0.0 < d < d2
    ensures n / d2 < n / d
  {
    assert n / d2 * d2 == n && n / d * d == n;
    assert n / d2 * d < n / d2 * d2;
  }

  /** A common nonzero factor of numerator and denominator cancels. */
  lemma CancelFactor(a: real, p: real, q: real)
    requires p != 0.0 && q != 0.0
    ensures a * p / (p * q) == a / q
  {
    var r := a / q;
    assert r * q == a;
    assert a * p == r * (p * q);
  }
}
