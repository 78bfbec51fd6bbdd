/** Machine integers, identifiers and LSPS2 records shared by every module. */
module Types {
  type Byte = n: nat | n < 0x100
  type UInt16 = n: nat | n < 0x1_0000
  type UInt32 = n: nat | n < 0x1_0000_0000
  type UInt64 = n: nat | n < 0x1_0000_0000_0000_0000
  type UInt128 = n: nat | n < 0x1_0000_0000_0000_0000_0000_0000_0000_0000

  const UINT64_LIMIT: nat := 0x1_0000_0000_0000_0000
  const UINT128_LIMIT: nat := UINT64_LIMIT * UINT64_LIMIT

  datatype Option<+T> = None | Some(value: T)

  datatype Result<+T, +E> = Ok(value: T) | Err(error: E)

  datatype InterceptId = InterceptId(bytes: seq<Byte>)
  datatype PaymentHash = PaymentHash(bytes: seq<Byte>)
  datatype ChannelId = ChannelId(bytes: seq<Byte>)
  datatype PublicKey = PublicKey(bytes: seq<Byte>)
  datatype RequestId = RequestId(text: string)

  /** A UTC instant: whole seconds since the Unix epoch and the nanoseconds on top of them. */
  datatype DateTime = DateTime(seconds: int, nanos: nat)

  /** The fee terms an LSP offers, before it has signed them. */
  datatype RawOpeningFeeParams = RawOpeningFeeParams(
    minFeeMsat: UInt64,
    proportional: UInt32,
    validUntil: DateTime,
    minLifetime: UInt32,
    maxClientToSelfDelay: UInt32,
    minPaymentSizeMsat: UInt64,
    maxPaymentSizeMsat: UInt64)

  /** The same terms with the promise that authenticates them. */
  datatype OpeningFeeParams = OpeningFeeParams(
    minFeeMsat: UInt64,
    proportional: UInt32,
    validUntil: DateTime,
    minLifetime: UInt32,
    maxClientToSelfDelay: UInt32,
    minPaymentSizeMsat: UInt64,
    maxPaymentSizeMsat: UInt64,
    promise: string)
}
