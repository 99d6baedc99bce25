// Products and quotients, one step at a time, so that no other proof has to meet them.
module Arith {

  lemma Grows(a: nat, b: nat, k: nat)
    requires a <= b
    ensures a * k <= b * k
  {
  }

  lemma Quotient(a: nat, k: nat, q: nat)
    requires k > 0 && q * k <= a < q * k + k
    ensures a / k == q
  {
    var p := a / k;
    assert p * k <= a < p * k + k;
    if p < q {
      Grows(p + 1, q, k);
    } else if p > q {
      Grows(q + 1, p, k);
    }
  }

  lemma Cancels(d: nat, n: nat)
    requires d > 0
    ensures d * n / d == n
  {
    assert n * d == d * n;
    Quotient(d * n, d, n);
  }

  lemma QuotientBounds(a: nat, d: nat)
    requires d > 0
    ensures (a / d) * d <= a < (a / d) * d + d
  {
  }

  lemma QuotientAtMost(a: nat, d: nat)
    requires d > 0
    ensures 0 <= a / d <= a
  {
    QuotientBounds(a, d);
    Grows(1, d, a / d);
    assert (a / d) * d == d * (a / d);
  }

  lemma FloorsAdd(a: nat, b: nat, d: nat)
    requires d > 0
    ensures a / d + b / d <= (a + b) / d
  {
    QuotientBounds(a, d);
    QuotientBounds(b, d);
    QuotientBounds(a + b, d);
    ProductsAdd(a / d, b / d, (a + b) / d, a, b, d);
  }

  lemma ProductsAdd(x: nat, y: nat, p: nat, a: nat, b: nat, d: nat)
    requires d > 0 && x * d <= a && y * d <= b && a + b < p * d + d
    ensures x + y <= p
  {
    Distributes(x, y, d);
    if p < x + y {
      Grows(p + 1, x + y, d);
    }
  }

  lemma Distributes(a: nat, b: nat, k: nat)
    ensures (a + b) * k == a * k + b * k
  {
  }
}
