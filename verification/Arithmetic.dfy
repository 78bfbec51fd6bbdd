/** Facts about products and integer division that the solver needs spelled out. */
module Arithmetic {
  lemma {:induction false} ProductSign(t: nat, d: nat)
    ensures t * d >= 0
    ensures t > 0 && d > 0 ==> t * d > 0
  {
    if d > 0 {
      ProductSign(t, d - 1);
      assert t * d == t * (d - 1) + t;
    }
  }

  lemma {:induction false} MulOrder(t: nat, a: int, b: int)
    requires t > 0
    ensures a <= b <==> t * a <= t * b
    ensures a < b <==> t * a < t * b
  {
    var d := if a < b then b - a else a - b;
    ProductSign(t, d);
    if a < b {
      Distribute(t, a, d);
    } else {
      Distribute(t, b, d);
    }
  }

  lemma {:induction false} DivisionBounds(a: nat, b: nat)
    requires b > 0
    ensures b * (a / b) <= a < b * (a / b) + b
  {
    assert a == b * (a / b) + a % b;
  }

  lemma {:induction false} Distribute(t: int, a: int, b: int)
    ensures t * (a + b) == t * a + t * b
  {
  }

  lemma {:induction false} QuotientUnique(a: nat, b: nat, q: int, r: nat)
    requires r < b && a == b * q + r
    ensures a / b == q && a % b == r
  {
    DivisionBounds(a, b);
    Distribute(b, q, 1);
    Distribute(b, a / b, 1);
    MulOrder(b, q, a / b + 1);
    MulOrder(b, a / b, q + 1);
    assert a == b * (a / b) + a % b;
  }

  lemma {:induction false} QuotientAtMost(a: nat, b: nat)
    requires b > 0
    ensures a / b <= a
  {
    DivisionBounds(a, b);
    if a > 0 {
      MulOrder(a, 1, b);
    }
    MulOrder(b, a / b, a);
  }

  /** Dividing twice is dividing by the product. */
  lemma {:induction false} DivideTwice(a: nat, b: nat, c: nat)
    requires b > 0 && c > 0
    ensures b * c > 0
    ensures a / b / c == a / (b * c)
    ensures a % (b * c) == b * (a / b % c) + a % b
  {
    MulOrder(b, 0, c);
    var q, r := a / b / c, a / b % c;
    assert a / b == c * q + r;
    assert a == b * (a / b) + a % b;
    Distribute(b, c * q, r);
    assert b * (c * q) == b * c * q;
    Distribute(b, r, 1);
    MulOrder(b, r + 1, c);
    QuotientUnique(a, b * c, q, b * r + a % b);
  }
}
