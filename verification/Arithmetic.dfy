/** Integer division facts the solver does not find by itself. */
module Arithmetic {

  lemma AtLeastOnce(d: int, p: int)
    requires p > 0
    ensures d >= 1 ==> d * p >= p
    ensures d <= -1 ==> d * p <= -p
  {
  }

  lemma Distribute(a: int, b: int, p: int)
    ensures (a - b) * p == a * p - b * p
  {
  }

  /** The quotient and the remainder are the only ones. */
  lemma QuotientIs(a: int, p: int, k: int, r: int)
    requires 0 <= r < p && a == k * p + r
    ensures a / p == k && a % p == r
  {
    var d := a / p - k;
    assert a == (a / p) * p + a % p;
    Distribute(a / p, k, p);
    assert d * p == r - a % p;
    AtLeastOnce(d, p);
  }

  lemma OneLess(b: int, p: int)
    requires p > 0
    ensures (b - p) / p == b / p - 1 && (b - p) % p == b % p
  {
    Distribute(b / p, 1, p);
    QuotientIs(b - p, p, b / p - 1, b % p);
  }

  lemma AtLeastOnePeriod(b: int, p: int)
    requires b >= p > 0
    ensures b / p >= 1
  {
  }
}
