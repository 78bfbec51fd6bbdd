/**
 Skimming the opening fee from the HTLCs of one payment.
 `Split` states what each HTLC forwards; the lemmas below bound what the split loses to rounding.
 */
module FeeSplit {
  import opened Types
  import opened Arithmetic
  import opened PaymentQueues

  datatype Forward = Forward(interceptId: InterceptId, amountMsat: nat)

  function Min(a: nat, b: nat): nat { if a <= b then a else b }

  function SaturatingSub(a: nat, b: nat): nat { if a >= b then a - b else 0 }

  function CeilDiv(a: nat, b: nat): nat
    requires b > 0
  {
    (a + b - 1) / b
  }

  /** An amount's proportional part of total - fee, rounded up. */
  function UnskimmedPart(fee: nat, amount: nat, total: nat): nat
    requires 0 < total && fee <= total
  {
    var product: nat := amount * (total - fee);
    CeilDiv(product, total)
  }

  /** The part of the fee that one HTLC carries: its proportional share, rounded down. */
  function Share(fee: nat, amount: nat, total: nat): nat {
    // A payment of positive HTLCs never has a zero total.
    if total == 0 then 0 else fee * amount / total
  }

  function Shares(htlcs: seq<InterceptedHTLC>, fee: nat, total: nat): nat {
    if htlcs == [] then 0
    else Shares(htlcs[..|htlcs| - 1], fee, total)
         + Share(fee, htlcs[|htlcs| - 1].expectedOutboundAmountMsat, total)
  }

  /** What rounding leaves of the fee after every HTLC has carried its share. */
  function Remainder(htlcs: seq<InterceptedHTLC>, fee: nat): int {
    fee - Shares(htlcs, fee, Total(htlcs))
  }

  /** Each HTLC's amount less its share of the fee, in order. */
  function LessShares(htlcs: seq<InterceptedHTLC>, fee: nat, total: nat): (r: seq<Forward>)
    ensures |r| == |htlcs|
  {
    seq(|htlcs|, i requires 0 <= i < |htlcs| =>
      Forward(htlcs[i].interceptId,
              SaturatingSub(htlcs[i].expectedOutboundAmountMsat,
                            Share(fee, htlcs[i].expectedOutboundAmountMsat, total))))
  }

  /** What every HTLC forwards: the last one also bears the remainder, as far as its amount goes. */
  function Split(htlcs: seq<InterceptedHTLC>, fee: nat): seq<Forward> {
    if htlcs == [] || fee > Total(htlcs) then []
    else
      var n := |htlcs| - 1;
      var last := htlcs[n];
      LessShares(htlcs[..n], fee, Total(htlcs)) +
      [Forward(last.interceptId,
               SaturatingSub(last.expectedOutboundAmountMsat,
                             Share(fee, last.expectedOutboundAmountMsat, Total(htlcs))
                             + PosPart(Remainder(htlcs, fee))))]
  }

  function PosPart(x: int): nat { if x >= 0 then x else 0 }

  function SumForwards(forwards: seq<Forward>): nat {
    if forwards == [] then 0
    else SumForwards(forwards[..|forwards| - 1]) + forwards[|forwards| - 1].amountMsat
  }

  // ---- Arithmetic of one share ----

  lemma {:induction false} ShareBounds(fee: nat, amount: nat, total: nat)
    requires 0 < total && fee <= total
    ensures total * Share(fee, amount, total) <= fee * amount
    ensures fee * amount + 1 <= total * Share(fee, amount, total) + total
    ensures Share(fee, amount, total) <= amount
    ensures fee < total && amount > 0 ==> Share(fee, amount, total) < amount
    ensures fee == total ==> Share(fee, amount, total) == amount
  {
    var share := Share(fee, amount, total);
    DivisionBounds(fee * amount, total);
    MulOrder(total, share, amount);
    MulOrder(total, amount, share + 1);
    if amount > 0 {
      MulOrder(amount, fee, total);
    }
  }

  /** What remains of an amount after its share is its part of total - fee, rounded up. */
  lemma {:induction false} LessShareIsCeiling(fee: nat, amount: nat, total: nat)
    requires 0 < total && fee <= total
    ensures amount - Share(fee, amount, total) == UnskimmedPart(fee, amount, total)
  {
    ShareBounds(fee, amount, total);
    var kept := amount - Share(fee, amount, total);
    assert total * kept == total * amount - total * Share(fee, amount, total);
    assert amount * (total - fee) == total * amount - fee * amount;
    CeilIsLeast(amount * (total - fee), total, kept);
  }

  lemma {:induction false} CeilIsLeast(a: nat, b: nat, q: nat)
    requires b > 0
    requires a <= b * q && b * q < a + b
    ensures CeilDiv(a, b) == q
  {
    DivisionBounds(a + b - 1, b);
    MulOrder(b, CeilDiv(a, b), q + 1);
    MulOrder(b, q, CeilDiv(a, b) + 1);
  }

  // ---- Sums of shares ----

  lemma {:induction false} SharesBounds(htlcs: seq<InterceptedHTLC>, fee: nat, total: nat)
    requires 0 < total && fee <= total
    ensures total * Shares(htlcs, fee, total) <= fee * Total(htlcs)
    ensures fee * Total(htlcs) + |htlcs| <= total * Shares(htlcs, fee, total) + total * |htlcs|
  {
    if htlcs != [] {
      var n := |htlcs| - 1;
      var init, amount := htlcs[..n], htlcs[n].expectedOutboundAmountMsat;
      SharesBounds(init, fee, total);
      ShareBounds(fee, amount, total);
      Distribute(total, Shares(init, fee, total), Share(fee, amount, total));
      Distribute(fee, Total(init), amount);
      Distribute(total, n, 1);
    }
  }

  /** Shares never exceed the fee, so the remainder is non-negative and below the HTLC count. */
  lemma {:induction false} RemainderBounds(htlcs: seq<InterceptedHTLC>, fee: nat)
    requires 0 < Total(htlcs) && fee <= Total(htlcs)
    ensures 0 <= Remainder(htlcs, fee) < |htlcs|
  {
    var total := Total(htlcs);
    var shares := Shares(htlcs, fee, total);
    SharesBounds(htlcs, fee, total);
    MulOrder(total, shares, fee);
    Distribute(total, shares, |htlcs|);
    MulOrder(total, fee, shares + |htlcs|);
  }

  /** Up to any point, the shares taken are at most the fee, and another share still fits. */
  lemma {:induction false} SharesPrefix(htlcs: seq<InterceptedHTLC>, fee: nat, total: nat, k: nat)
    requires k <= |htlcs|
    ensures Shares(htlcs[..k], fee, total) <= Shares(htlcs, fee, total)
    decreases |htlcs|
  {
    if k < |htlcs| {
      var init := htlcs[..|htlcs| - 1];
      SharesPrefix(init, fee, total, k);
      assert init[..k] == htlcs[..k];
    } else {
      assert htlcs[..k] == htlcs;
    }
  }

  lemma {:induction false} SumLessShares(htlcs: seq<InterceptedHTLC>, fee: nat, total: nat)
    requires 0 < total && fee <= total
    ensures SumForwards(LessShares(htlcs, fee, total)) == Total(htlcs) - Shares(htlcs, fee, total)
  {
    if htlcs != [] {
      var init := htlcs[..|htlcs| - 1];
      SumLessShares(init, fee, total);
      ShareBounds(fee, htlcs[|htlcs| - 1].expectedOutboundAmountMsat, total);
      assert LessShares(htlcs, fee, total)[..|htlcs| - 1] == LessShares(init, fee, total);
    }
  }

  lemma {:induction false} SumSnoc(forwards: seq<Forward>, last: Forward)
    ensures SumForwards(forwards + [last]) == SumForwards(forwards) + last.amountMsat
  {
    assert (forwards + [last])[..|forwards|] == forwards;
  }

  /** How far the last HTLC falls short of the remainder it should bear on top of its share. */
  function Shortfall(htlcs: seq<InterceptedHTLC>, fee: nat): int
    requires 0 < Total(htlcs) && fee <= Total(htlcs)
  {
    Remainder(htlcs, fee) - UnskimmedPart(fee, htlcs[|htlcs| - 1].expectedOutboundAmountMsat, Total(htlcs))
  }

  lemma {:induction false} SplitSum(htlcs: seq<InterceptedHTLC>, fee: nat)
    requires 0 < Total(htlcs) && fee <= Total(htlcs)
    ensures SumForwards(Split(htlcs, fee)) == Total(htlcs) - fee + PosPart(Shortfall(htlcs, fee))
  {
    var n, total := |htlcs| - 1, Total(htlcs);
    RemainderBounds(htlcs, fee);
    SumLessShares(htlcs[..n], fee, total);
    ShareBounds(fee, htlcs[n].expectedOutboundAmountMsat, total);
    LessShareIsCeiling(fee, htlcs[n].expectedOutboundAmountMsat, total);
    SumSnoc(LessShares(htlcs[..n], fee, total), Split(htlcs, fee)[n]);
  }

  /** With nothing in the last HTLC, only the others contribute to the remainder. */
  lemma {:induction false} EmptyLastRemainder(htlcs: seq<InterceptedHTLC>, fee: nat)
    requires 0 < Total(htlcs) && fee <= Total(htlcs)
    requires htlcs[|htlcs| - 1].expectedOutboundAmountMsat == 0
    ensures Remainder(htlcs, fee) <= |htlcs| - 2
  {
    var n, total := |htlcs| - 1, Total(htlcs);
    var shares := Shares(htlcs[..n], fee, total);
    SharesBounds(htlcs[..n], fee, total);
    ShareBounds(fee, 0, total);
    Distribute(total, shares, n);
    BelowAfterRounding(total, fee, shares + n, n);
  }

  lemma {:induction false} BelowAfterRounding(total: nat, fee: nat, bound: nat, n: nat)
    requires 0 < total && n > 0 && fee * total + n <= total * bound
    ensures fee < bound
  {
    assert total * fee == fee * total;
    MulOrder(total, fee, bound);
  }

  /** Something of the last HTLC is left unskimmed unless it is empty or everything is skimmed. */
  lemma {:induction false} LastLeavesSomething(htlcs: seq<InterceptedHTLC>, fee: nat)
    requires fee < Total(htlcs) && htlcs[|htlcs| - 1].expectedOutboundAmountMsat > 0
    ensures UnskimmedPart(fee, htlcs[|htlcs| - 1].expectedOutboundAmountMsat, Total(htlcs)) >= 1
  {
    ShareBounds(fee, htlcs[|htlcs| - 1].expectedOutboundAmountMsat, Total(htlcs));
    LessShareIsCeiling(fee, htlcs[|htlcs| - 1].expectedOutboundAmountMsat, Total(htlcs));
  }

  lemma {:induction false} ShortfallBound(htlcs: seq<InterceptedHTLC>, fee: nat)
    requires 0 < Total(htlcs) && fee <= Total(htlcs)
    ensures PosPart(Shortfall(htlcs, fee)) <= PosPart(|htlcs| - 2)
  {
    RemainderBounds(htlcs, fee);
    if fee == Total(htlcs) {
      AllTakenExactly(htlcs, fee);
    } else if htlcs[|htlcs| - 1].expectedOutboundAmountMsat == 0 {
      EmptyLastRemainder(htlcs, fee);
    } else {
      LastLeavesSomething(htlcs, fee);
    }
  }

  lemma {:induction false} AllTakenExactly(htlcs: seq<InterceptedHTLC>, total: nat)
    requires 0 < total
    ensures Shares(htlcs, total, total) == Total(htlcs)
  {
    if htlcs != [] {
      AllTakenExactly(htlcs[..|htlcs| - 1], total);
      ShareBounds(total, htlcs[|htlcs| - 1].expectedOutboundAmountMsat, total);
    }
  }

  // ---- Main results ----

  /** The split forwards total - fee, plus at most n - 2 msat that rounding keeps from the LSP. */
  lemma {:induction false} SplitConserves(htlcs: seq<InterceptedHTLC>, fee: nat)
    requires 0 < Total(htlcs) && fee <= Total(htlcs)
    ensures Total(htlcs) - fee <= SumForwards(Split(htlcs, fee))
    ensures SumForwards(Split(htlcs, fee)) <= Total(htlcs) - fee + PosPart(|htlcs| - 2)
    ensures |htlcs| <= 2 ==> SumForwards(Split(htlcs, fee)) == Total(htlcs) - fee
  {
    SplitSum(htlcs, fee);
    ShortfallBound(htlcs, fee);
  }

  /** The whole fee is skimmed exactly when the last HTLC's unskimmed part holds the remainder. */
  lemma {:induction false} SplitExactIff(htlcs: seq<InterceptedHTLC>, fee: nat)
    requires 0 < Total(htlcs) && fee <= Total(htlcs)
    ensures SumForwards(Split(htlcs, fee)) == Total(htlcs) - fee <==>
            Remainder(htlcs, fee) <= UnskimmedPart(fee, htlcs[|htlcs| - 1].expectedOutboundAmountMsat, Total(htlcs))
  {
    SplitSum(htlcs, fee);
  }

  lemma {:induction false} SplitAt(htlcs: seq<InterceptedHTLC>, fee: nat, i: nat, amount: nat, share: nat)
    requires i < |htlcs| && 0 < Total(htlcs) && fee <= Total(htlcs)
    requires amount == htlcs[i].expectedOutboundAmountMsat && share == Share(fee, amount, Total(htlcs))
    ensures |Split(htlcs, fee)| == |htlcs|
    ensures Split(htlcs, fee)[i].interceptId == htlcs[i].interceptId
    ensures i < |htlcs| - 1 ==> Split(htlcs, fee)[i].amountMsat == SaturatingSub(amount, share)
    ensures Split(htlcs, fee)[i].amountMsat <= SaturatingSub(amount, share)
  {
  }

  /** Every HTLC but the last forwards its part of total - fee rounded up; the last at most that. */
  lemma {:induction false} SplitFair(htlcs: seq<InterceptedHTLC>, fee: nat, i: nat)
    requires i < |htlcs| && 0 < Total(htlcs) && fee <= Total(htlcs)
    ensures |Split(htlcs, fee)| == |htlcs|
    ensures Split(htlcs, fee)[i].interceptId == htlcs[i].interceptId
    ensures var part := UnskimmedPart(fee, htlcs[i].expectedOutboundAmountMsat, Total(htlcs));
            if i < |htlcs| - 1 then Split(htlcs, fee)[i].amountMsat == part
            else Split(htlcs, fee)[i].amountMsat <= part
  {
    var amount, total := htlcs[i].expectedOutboundAmountMsat, Total(htlcs);
    var share := Share(fee, amount, total);
    SplitAt(htlcs, fee, i, amount, share);
    ShareBounds(fee, amount, total);
    LessShareIsCeiling(fee, amount, total);
  }

  /** The part of total - fee that one HTLC forwards, rounded up. */
  function PartOf(fee: nat, amount: nat, total: nat): nat {
    if 0 < total && fee <= total then UnskimmedPart(fee, amount, total) else 0
  }

  function Parts(htlcs: seq<InterceptedHTLC>, fee: nat, total: nat): nat {
    if htlcs == [] then 0
    else Parts(htlcs[..|htlcs| - 1], fee, total) + PartOf(fee, htlcs[|htlcs| - 1].expectedOutboundAmountMsat, total)
  }

  /** What HTLC i of a payment forwards: its part of total - fee; the last one whatever the others leave of it. */
  function FeeAmount(htlcs: seq<InterceptedHTLC>, fee: nat, i: nat): nat
    requires i < |htlcs|
  {
    if i < |htlcs| - 1 then PartOf(fee, htlcs[i].expectedOutboundAmountMsat, Total(htlcs))
    else PosPart(Total(htlcs) - fee - Parts(htlcs[..i], fee, Total(htlcs)))
  }

  lemma {:induction false} PartsAreUnshared(htlcs: seq<InterceptedHTLC>, fee: nat, total: nat)
    requires 0 < total && fee <= total
    ensures Parts(htlcs, fee, total) == Total(htlcs) - Shares(htlcs, fee, total)
  {
    if htlcs != [] {
      PartsAreUnshared(htlcs[..|htlcs| - 1], fee, total);
      LessShareIsCeiling(fee, htlcs[|htlcs| - 1].expectedOutboundAmountMsat, total);
    }
  }

  lemma {:induction false} LastMakesUp(htlcs: seq<InterceptedHTLC>, fee: nat)
    requires 0 < Total(htlcs) && fee <= Total(htlcs)
    ensures var n := |htlcs| - 1;
            |Split(htlcs, fee)| == n + 1 && Split(htlcs, fee)[n].amountMsat == FeeAmount(htlcs, fee, n)
  {
    var n, total := |htlcs| - 1, Total(htlcs);
    var amount := htlcs[n].expectedOutboundAmountMsat;
    PartsAreUnshared(htlcs[..n], fee, total);
    RemainderBounds(htlcs, fee);
    ShareBounds(fee, amount, total);
  }

  lemma {:induction false} NothingInIt(htlcs: seq<InterceptedHTLC>, i: nat)
    requires Total(htlcs) == 0 && i < |htlcs|
    ensures htlcs[i].expectedOutboundAmountMsat == 0
  {
    if i < |htlcs| - 1 {
      NothingInIt(htlcs[..|htlcs| - 1], i);
    }
  }

  /** Every HTLC of the split is its own, with exactly this amount. */
  lemma {:induction false} SplitIs(htlcs: seq<InterceptedHTLC>, fee: nat, i: nat)
    requires i < |htlcs| && fee <= Total(htlcs)
    ensures |Split(htlcs, fee)| == |htlcs|
    ensures Split(htlcs, fee)[i] == Forward(htlcs[i].interceptId, FeeAmount(htlcs, fee, i))
  {
    if Total(htlcs) == 0 {
      NothingInIt(htlcs, i);
      assert |Split(htlcs, fee)| == |htlcs|;
    } else {
      SplitFair(htlcs, fee, i);
      LastMakesUp(htlcs, fee);
    }
  }

  /** n - 1 HTLCs of 2 msat and a last one of 1 msat. */
  function Uneven(n: nat, id: InterceptId, hash: PaymentHash): (htlcs: seq<InterceptedHTLC>)
    requires n > 0
    ensures |htlcs| == n
  {
    Twos(n - 1, id, hash) + [InterceptedHTLC(id, 1, hash)]
  }

  function Twos(n: nat, id: InterceptId, hash: PaymentHash): (htlcs: seq<InterceptedHTLC>)
    ensures |htlcs| == n
  {
    seq(n, _ => InterceptedHTLC(id, 2, hash))
  }

  lemma {:induction false} TwosTotals(n: nat, fee: nat, total: nat, id: InterceptId, hash: PaymentHash)
    requires fee * 2 < total
    ensures Total(Twos(n, id, hash)) == 2 * n
    ensures Shares(Twos(n, id, hash), fee, total) == 0
  {
    if n > 0 {
      TwosTotals(n - 1, fee, total, id, hash);
      assert Twos(n, id, hash)[..n - 1] == Twos(n - 1, id, hash);
      assert Share(fee, 2, total) == 0;
    }
  }

  /** Half a msat each, rounded down: nothing of the fee is shared out. */
  lemma {:induction false} UnevenTotals(n: nat, id: InterceptId, hash: PaymentHash)
    requires n >= 2
    ensures Total(Uneven(n, id, hash)) == 2 * n - 1
    ensures Remainder(Uneven(n, id, hash), n - 1) == n - 1
  {
    var last := InterceptedHTLC(id, 1, hash);
    TwosTotals(n - 1, n - 1, 2 * n - 1, id, hash);
    TotalSnoc(Twos(n - 1, id, hash), last);
    assert Uneven(n, id, hash)[..n - 1] == Twos(n - 1, id, hash);
    assert Share(n - 1, 1, 2 * n - 1) == 0;
  }

  /** The bound of `SplitConserves` is reached for every number of HTLCs. */
  lemma {:induction false} SplitBoundReached(n: nat, id: InterceptId, hash: PaymentHash)
    requires n >= 2
    ensures var htlcs := Uneven(n, id, hash);
            n - 1 <= Total(htlcs) && SumForwards(Split(htlcs, n - 1)) == Total(htlcs) - (n - 1) + (n - 2)
  {
    UnevenTotals(n, id, hash);
    CeilIsLeast(n, 2 * n - 1, 1);
    SplitSum(Uneven(n, id, hash), n - 1);
  }

  /** Amounts 2, 2, 1 and a fee of 2: one msat of the fee is not skimmed. */
  lemma {:induction false} SplitNotAlwaysExact(id: InterceptId, hash: PaymentHash)
    ensures var htlcs := [InterceptedHTLC(id, 2, hash), InterceptedHTLC(id, 2, hash), InterceptedHTLC(id, 1, hash)];
            SumForwards(Split(htlcs, 2)) != Total(htlcs) - 2
  {
    SplitBoundReached(3, id, hash);
    assert Uneven(3, id, hash) ==
           [InterceptedHTLC(id, 2, hash), InterceptedHTLC(id, 2, hash), InterceptedHTLC(id, 1, hash)];
  }

  // ---- The loop ----

  /** A 128-bit value cut down to 64 bits. */
  function AsUInt64(x: UInt128): UInt64 { x % UINT64_LIMIT }

  lemma {:induction false} ProductFits(a: UInt64, b: UInt64)
    ensures a * b < UINT128_LIMIT
  {
    assert a * b <= UINT64_LIMIT * b <= UINT64_LIMIT * UINT64_LIMIT - UINT64_LIMIT by {
      MulOrder(UINT64_LIMIT, b, UINT64_LIMIT - 1);
      if b > 0 {
        MulOrder(b, a, UINT64_LIMIT);
      }
    }
  }

  /** What one iteration needs: the share fits in what is left of the fee, and neither clamp binds. */
  lemma {:induction false} NextShare(htlcs: seq<InterceptedHTLC>, fee: nat, index: nat)
    requires index < |htlcs| && 0 < Total(htlcs) && fee <= Total(htlcs)
    ensures var share := Share(fee, htlcs[index].expectedOutboundAmountMsat, Total(htlcs));
            && Shares(htlcs[..index + 1], fee, Total(htlcs)) == Shares(htlcs[..index], fee, Total(htlcs)) + share
            && Shares(htlcs[..index + 1], fee, Total(htlcs)) <= fee
            && share <= htlcs[index].expectedOutboundAmountMsat
  {
    RemainderBounds(htlcs, fee);
    ShareBounds(fee, htlcs[index].expectedOutboundAmountMsat, Total(htlcs));
    SharesPrefix(htlcs, fee, Total(htlcs), index + 1);
    assert htlcs[..index + 1][..index] == htlcs[..index];
  }

  lemma {:induction false} LessSharesSnoc(htlcs: seq<InterceptedHTLC>, fee: nat, total: nat, index: nat)
    requires index < |htlcs|
    ensures LessShares(htlcs[..index + 1], fee, total) ==
            LessShares(htlcs[..index], fee, total)
            + [Forward(htlcs[index].interceptId,
                       SaturatingSub(htlcs[index].expectedOutboundAmountMsat,
                                     Share(fee, htlcs[index].expectedOutboundAmountMsat, total)))]
  {
  }

  method CalculateAmountToForwardPerHtlc(htlcs: seq<InterceptedHTLC>, totalFeeMsat: UInt64)
    returns (perHtlcForwards: seq<Forward>)
    requires Total(htlcs) < UINT64_LIMIT
    // A payment of zero-value HTLCs and a zero fee would divide by zero.
    requires htlcs == [] || totalFeeMsat > 0 || Total(htlcs) > 0
    ensures perHtlcForwards == Split(htlcs, totalFeeMsat)
  {
    var totalMsat := SumAmounts(htlcs);
    if totalFeeMsat > totalMsat {
      return [];
    }
    var feeRemainingMsat: UInt64 := totalFeeMsat;
    perHtlcForwards := [];
    for index := 0 to |htlcs|
      invariant feeRemainingMsat == totalFeeMsat - Shares(htlcs[..index], totalFeeMsat, totalMsat)
      invariant index < |htlcs| ==> perHtlcForwards == LessShares(htlcs[..index], totalFeeMsat, totalMsat)
      invariant index == |htlcs| ==> perHtlcForwards == Split(htlcs, totalFeeMsat)
    {
      var amount := htlcs[index].expectedOutboundAmountMsat;
      ProductFits(totalFeeMsat, amount);
      NextShare(htlcs, totalFeeMsat, index);
      LessSharesSnoc(htlcs, totalFeeMsat, totalMsat, index);

      var proportional := AsUInt64(totalFeeMsat * amount / totalMsat);
      assert proportional == Share(totalFeeMsat, amount, totalMsat);
      var actual: nat := Min(feeRemainingMsat, proportional);
      actual := Min(actual, amount);
      assert actual == proportional;
      feeRemainingMsat := feeRemainingMsat - actual;
      if index == |htlcs| - 1 {
        assert htlcs[..index + 1] == htlcs;
        actual := actual + feeRemainingMsat;
      }
      perHtlcForwards := perHtlcForwards + [Forward(htlcs[index].interceptId, SaturatingSub(amount, actual))];
    }
  }
}
