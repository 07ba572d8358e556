/** Quotients of integers by what bounds them. */
module Quotients {
  lemma QuotientIs(a: int, q: int, b: nat)
    requires b > 0 && q * b <= a < q * b + b
    ensures a / b == q
  {
    var r := a / b;
    assert a == r * b + a % b;
    ProductOrder(r, q, b);
    ProductOrder(q, r, b);
  }

  lemma ProductOrder(x: int, y: int, b: nat)
    ensures x < y ==> x * b + b <= y * b
  {
    if x < y {
      assert (x + 1) * b <= y * b;
    }
  }
}
