/** Quotients and multiples of natural numbers. */
module Naturals {

  lemma QuotientUnique(a: nat, d: nat, q: nat, r: nat)
    requires r < d && a == d * q + r
    ensures a / d == q && a % d == r
  {
    var q' := a / d;
    if q' < q {
      MultipleMonotone(d, q' + 1, q);
      assert false;
    } else if q < q' {
      MultipleMonotone(d, q + 1, q');
      assert false;
    }
  }

  lemma MultipleMonotone(d: nat, x: nat, y: nat)
    requires x <= y
    ensures d * x <= d * y
    ensures d * (x + 1) == d * x + d
  {
  }
}
