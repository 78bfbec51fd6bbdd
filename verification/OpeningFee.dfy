/** The opening fee an LSP charges for a payment (LSPS2, section "Computing the opening_fee"). */
module OpeningFees {
  import opened Types

  function CheckedMul(a: nat, b: nat): Option<nat> {
    if a * b < UINT64_LIMIT then Some(a * b) else None
  }

  function CheckedAdd(a: nat, b: nat): Option<nat> {
    if a + b < UINT64_LIMIT then Some(a + b) else None
  }

  /** A fee covers `proportional` parts per million of the payment and the minimum fee. */
  ghost predicate Covers(fee: nat, paymentSizeMsat: nat, minFeeMsat: nat, proportional: nat) {
    minFeeMsat <= fee && paymentSizeMsat * proportional <= fee * 1_000_000
  }

  /** The least covering fee, or nothing exactly when the rounded product leaves 64 bits. */
  function ComputeOpeningFee(paymentSizeMsat: nat, minFeeMsat: UInt64, proportional: nat): (fee: Option<UInt64>)
    ensures fee.Some? <==> paymentSizeMsat * proportional + 999_999 < UINT64_LIMIT
    ensures fee.Some? ==> Covers(fee.value, paymentSizeMsat, minFeeMsat, proportional)
    ensures fee.Some? ==>
              forall f: nat :: Covers(f, paymentSizeMsat, minFeeMsat, proportional) ==> fee.value <= f
  {
    match CheckedMul(paymentSizeMsat, proportional)
    case None => None
    case Some(product) =>
      match CheckedAdd(product, 999_999)
      case None => None
      case Some(sum) =>
        var rounded := sum / 1_000_000;
        Some(if rounded >= minFeeMsat then rounded else minFeeMsat)
  }

  lemma {:induction false} ProductMonotone(a: nat, b: nat, c: nat, d: nat)
    requires a <= c && b <= d
    ensures a * b <= c * d
  {
    assert a * b <= c * b;
    assert c * b <= c * d;
  }

  /** A larger payment or steeper terms never lower the fee; smaller ones never make it overflow. */
  lemma {:induction false} OpeningFeeMonotone(
    size: nat, minFee: UInt64, proportional: nat,
    size': nat, minFee': UInt64, proportional': nat)
    requires size <= size' && minFee <= minFee' && proportional <= proportional'
    requires ComputeOpeningFee(size', minFee', proportional').Some?
    ensures ComputeOpeningFee(size, minFee, proportional).Some?
    ensures ComputeOpeningFee(size, minFee, proportional).value
         <= ComputeOpeningFee(size', minFee', proportional').value
  {
    ProductMonotone(size, proportional, size', proportional');
    var fee' := ComputeOpeningFee(size', minFee', proportional').value;
    assert Covers(fee', size, minFee, proportional);
  }
}
