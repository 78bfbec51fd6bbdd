/** Bit operations of unsigned machine integers, on naturals. */
module Bits {
  import opened Arithmetic
  import opened Types

  function Pow2(k: nat): (p: nat)
    ensures p > 0
  {
    if k == 0 then 1 else 2 * Pow2(k - 1)
  }

  function BitOr(a: nat, b: nat): nat
    decreases a + b
  {
    if a == 0 && b == 0 then 0
    else 2 * BitOr(a / 2, b / 2) + if a % 2 == 1 || b % 2 == 1 then 1 else 0
  }

  function BitAnd(a: nat, b: nat): nat
    decreases a + b
  {
    if a == 0 && b == 0 then 0
    else 2 * BitAnd(a / 2, b / 2) + if a % 2 == 1 && b % 2 == 1 then 1 else 0
  }

  function Quotient(a: nat, b: nat): (q: nat)
    requires b > 0
    ensures q <= a
  {
    QuotientAtMost(a, b);
    a / b
  }

  function ShiftRight(a: UInt64, k: nat): UInt64 { Quotient(a, Pow2(k)) }

  /** Bits shifted past the 64th are lost. */
  function ShiftLeft(a: UInt64, k: nat): UInt64 { a * Pow2(k) % UINT64_LIMIT }

  /** Masking with k ones keeps the low k bits. */
  lemma {:induction false} MaskIsRemainder(a: nat, k: nat)
    ensures BitAnd(a, Pow2(k) - 1) == a % Pow2(k)
    decreases k
  {
    if k == 0 {
      AndZero(a);
    } else {
      MaskIsRemainder(a / 2, k - 1);
      var p := Pow2(k - 1);
      assert (2 * p - 1) / 2 == p - 1 && (2 * p - 1) % 2 == 1;
      DivideTwice(a, 2, p);
    }
  }

  lemma {:induction false} AndZero(a: nat)
    ensures BitAnd(a, 0) == 0
    decreases a
  {
    if a > 0 {
      AndZero(a / 2);
    }
  }

  /** Numbers that share no bit are or-ed by adding them. */
  lemma {:induction false} OrIsSum(shifted: nat, high: nat, low: nat, k: nat)
    requires low < Pow2(k) && shifted == high * Pow2(k)
    ensures BitOr(shifted, low) == shifted + low
    decreases k
  {
    if k == 0 {
      OrZero(high);
    } else {
      var p := Pow2(k - 1);
      var half := high * p;
      assert shifted == 2 * half;
      OrIsSum(half, high, low / 2, k - 1);
    }
  }

  lemma {:induction false} OrFits(a: nat, b: nat, k: nat)
    requires a < Pow2(k) && b < Pow2(k)
    ensures BitOr(a, b) < Pow2(k)
    decreases k
  {
    if k > 0 {
      OrFits(a / 2, b / 2, k - 1);
    }
  }

  lemma {:induction false} OrZero(a: nat)
    ensures BitOr(a, 0) == a
    decreases a
  {
    if a > 0 {
      OrZero(a / 2);
    }
  }
}
