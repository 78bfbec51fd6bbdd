/**
 Short channel ids and their human readable form BBBxTTTxVVV
 (BOLT #7, section "Definition of short_channel_id").
 */
module Scids {
  import opened Types
  import opened Arithmetic
  import opened Bits
  import opened Decimals

  const MAX_SCID_TX_INDEX: UInt64 := 0x00ff_ffff
  const MAX_SCID_VOUT_INDEX: UInt64 := 0xffff

  function AsUInt32(x: UInt64): UInt32 { x % 0x1_0000_0000 }

  function AsUInt16(x: UInt64): UInt16 { x % 0x1_0000 }

  lemma {:induction false} AndAtMost(a: nat, b: nat)
    ensures BitAnd(a, b) <= b
    decreases a + b
  {
    if a + b > 0 {
      AndAtMost(a / 2, b / 2);
    }
  }

  function Masked(a: UInt64, mask: UInt64): UInt64 {
    AndAtMost(a, mask);
    BitAnd(a, mask)
  }

  function BlockFromScid(scid: UInt64): UInt32 { AsUInt32(ShiftRight(scid, 40)) }

  function TxIndexFromScid(scid: UInt64): UInt32 { AsUInt32(Masked(ShiftRight(scid, 16), MAX_SCID_TX_INDEX)) }

  function VoutFromScid(scid: UInt64): UInt16 { AsUInt16(Masked(scid, MAX_SCID_VOUT_INDEX)) }

  /** The text an `InterceptScid` carries. */
  function FromScid(scid: UInt64): string {
    Print(BlockFromScid(scid)) + "x" + Print(TxIndexFromScid(scid)) + "x" + Print(VoutFromScid(scid))
  }

  /** The index of the first 'x', or the length of the text. */
  function FirstX(s: string): (i: nat)
    ensures i <= |s|
    ensures i < |s| ==> s[i] == 'x'
    ensures forall k :: 0 <= k < i ==> s[k] != 'x'
  {
    if s == [] || s[0] == 'x' then 0 else 1 + FirstX(s[1..])
  }

  /** The part before the first 'x', and what follows it if there is an 'x'. */
  function SplitFirst(s: string): (string, Option<string>) {
    var i := FirstX(s);
    (s[..i], if i < |s| then Some(s[i + 1..]) else None)
  }

  function Or(a: UInt64, b: UInt64): UInt64 {
    Powers();
    OrFits(a, b, 64);
    BitOr(a, b)
  }

  function Combine(block: UInt64, txIndex: UInt64, vout: UInt64): UInt64 {
    Or(Or(ShiftLeft(block, 40), ShiftLeft(txIndex, 16)), vout)
  }

  /** The first three parts of the text, each an unsigned 64-bit number; any further part is ignored. */
  function ToScid(s: string): Option<UInt64> {
    var (first, rest) := SplitFirst(s);
    var block := ParseUInt64(first);
    if block.None? || rest.None? then None
    else
      var (second, rest') := SplitFirst(rest.value);
      var txIndex := ParseUInt64(second);
      if txIndex.None? || rest'.None? then None
      else
        var (third, _) := SplitFirst(rest'.value);
        var vout := ParseUInt64(third);
        if vout.None? then None else Some(Combine(block.value, txIndex.value, vout.value))
  }

  lemma {:induction false} Powers()
    ensures Pow2(16) == 0x1_0000
    ensures Pow2(24) == 0x100_0000
    ensures Pow2(40) == 0x100_0000_0000
    ensures Pow2(64) == UINT64_LIMIT
  {
    assert Pow2(8) == 0x100;
    assert Pow2(12) == 0x1000;
    assert Pow2(16) == 0x1_0000;
    assert Pow2(20) == 0x10_0000;
    assert Pow2(24) == 0x100_0000;
    assert Pow2(28) == 0x1000_0000;
    assert Pow2(32) == 0x1_0000_0000;
    assert Pow2(36) == 0x10_0000_0000;
    assert Pow2(40) == 0x100_0000_0000;
    assert Pow2(44) == 0x1000_0000_0000;
    assert Pow2(48) == 0x1_0000_0000_0000;
    assert Pow2(52) == 0x10_0000_0000_0000;
    assert Pow2(56) == 0x100_0000_0000_0000;
    assert Pow2(60) == 0x1000_0000_0000_0000;
  }

  lemma {:induction false} SmallRemainder(a: nat, b: nat)
    requires a < b
    ensures a % b == a
  {
  }

  lemma {:induction false} QuotientBelow(a: nat, b: nat, c: nat)
    requires b > 0 && a < b * c
    ensures a / b < c
  {
    DivisionBounds(a, b);
    MulOrder(b, a / b, c);
  }

  lemma {:induction false} BlockIsDigit(scid: UInt64)
    ensures BlockFromScid(scid) == scid / 0x100_0000_0000
  {
    Powers();
    QuotientBelow(scid, 0x100_0000_0000, 0x100_0000);
    SmallRemainder(scid / 0x100_0000_0000, 0x1_0000_0000);
  }

  lemma {:induction false} MaskedIsDigit(a: nat, k: nat, limit: nat)
    requires Pow2(k) <= limit
    ensures BitAnd(a, Pow2(k) - 1) % limit == a % Pow2(k)
  {
    MaskIsRemainder(a, k);
    SmallRemainder(a % Pow2(k), limit);
  }

  lemma {:induction false} TxIndexIsDigit(scid: UInt64)
    ensures TxIndexFromScid(scid) == scid / 0x1_0000 % 0x100_0000
  {
    Powers();
    MaskedIsDigit(ShiftRight(scid, 16), 24, 0x1_0000_0000);
  }

  lemma {:induction false} VoutIsDigit(scid: UInt64)
    ensures VoutFromScid(scid) == scid % 0x1_0000
  {
    Powers();
    MaskedIsDigit(scid, 16, 0x1_0000);
  }

  /** The extractors are the three digits of the id in the mixed base 2^24, 2^24, 2^16. */
  lemma {:induction false} ExtractorsAreDigits(scid: UInt64)
    ensures BlockFromScid(scid) == scid / 0x100_0000_0000
    ensures TxIndexFromScid(scid) == scid / 0x1_0000 % 0x100_0000
    ensures VoutFromScid(scid) == scid % 0x1_0000
  {
    BlockIsDigit(scid);
    TxIndexIsDigit(scid);
    VoutIsDigit(scid);
  }

  lemma {:induction false} Shifted(block: UInt64, txIndex: UInt64)
    requires block < 0x100_0000 && txIndex < 0x100_0000
    ensures ShiftLeft(block, 40) == block * 0x100_0000_0000
    ensures ShiftLeft(txIndex, 16) == txIndex * 0x1_0000
  {
    Powers();
  }

  lemma {:induction false} CombineIsSum(block: UInt64, txIndex: UInt64, vout: UInt64)
    requires block < 0x100_0000 && txIndex < 0x100_0000 && vout < 0x1_0000
    ensures Combine(block, txIndex, vout) == block * 0x100_0000_0000 + txIndex * 0x1_0000 + vout
  {
    Shifted(block, txIndex);
    var high, middle := block * 0x100_0000_0000, txIndex * 0x1_0000;
    OrTwice(block, txIndex, high, middle, vout);
  }

  lemma {:induction false} OrTwice(block: nat, txIndex: nat, high: nat, middle: nat, vout: nat)
    requires txIndex < 0x100_0000 && vout < 0x1_0000
    requires high == block * 0x100_0000_0000 && middle == txIndex * 0x1_0000
    ensures BitOr(BitOr(high, middle), vout) == high + middle + vout
  {
    Powers();
    OrIsSum(high, block, middle, 40);
    OrIsSum(high + middle, block * 0x100_0000 + txIndex, vout, 16);
  }

  lemma {:induction false} SplitAtX(part: string, rest: string)
    requires forall k :: 0 <= k < |part| ==> part[k] != 'x'
    ensures SplitFirst(part + "x" + rest) == (part, Some(rest))
    ensures SplitFirst(part) == (part, None)
  {
    var s := part + "x" + rest;
    FirstXIs(s, |part|);
    assert s[..|part|] == part && s[|part| + 1..] == rest;
    FirstXIs(part, |part|);
    assert part[..|part|] == part;
  }

  lemma {:induction false} FirstXIs(s: string, i: nat)
    requires i <= |s|
    requires forall k :: 0 <= k < i ==> s[k] != 'x'
    requires i < |s| ==> s[i] == 'x'
    ensures FirstX(s) == i
  {
  }

  lemma {:induction false} ThreeParts(
    a: string, b: string, c: string, block: UInt64, txIndex: UInt64, vout: UInt64)
    requires forall k :: 0 <= k < |a| ==> a[k] != 'x'
    requires forall k :: 0 <= k < |b| ==> b[k] != 'x'
    requires forall k :: 0 <= k < |c| ==> c[k] != 'x'
    requires ParseUInt64(a) == Some(block) && ParseUInt64(b) == Some(txIndex) && ParseUInt64(c) == Some(vout)
    ensures ToScid(a + "x" + b + "x" + c) == Some(Combine(block, txIndex, vout))
  {
    var tail := b + "x" + c;
    assert a + "x" + b + "x" + c == a + "x" + tail;
    SplitAtX(a, tail);
    SplitAtX(b, c);
    SplitAtX(c, []);
  }

  lemma {:induction false} ParsesText(block: UInt64, txIndex: UInt64, vout: UInt64)
    ensures ToScid(Print(block) + "x" + Print(txIndex) + "x" + Print(vout)) == Some(Combine(block, txIndex, vout))
  {
    var a, b, c := Print(block), Print(txIndex), Print(vout);
    UInt64RoundTrip(block);
    UInt64RoundTrip(txIndex);
    UInt64RoundTrip(vout);
    ThreeParts(a, b, c, block, txIndex, vout);
  }

  lemma {:induction false} CombineDigits(scid: UInt64, block: UInt64, txIndex: UInt64, vout: UInt64)
    requires block == scid / 0x100_0000_0000
    requires txIndex == scid / 0x1_0000 % 0x100_0000
    requires vout == scid % 0x1_0000
    ensures Combine(block, txIndex, vout) == scid
  {
    QuotientBelow(scid, 0x100_0000_0000, 0x100_0000);
    CombineIsSum(block, txIndex, vout);
    DigitsSumUp(scid);
  }

  /** Every id survives being printed and parsed back. */
  lemma {:induction false} ScidRoundTrip(scid: UInt64)
    ensures ToScid(FromScid(scid)) == Some(scid)
  {
    ExtractorsAreDigits(scid);
    ParsesText(BlockFromScid(scid), TxIndexFromScid(scid), VoutFromScid(scid));
    CombineDigits(scid, BlockFromScid(scid), TxIndexFromScid(scid), VoutFromScid(scid));
  }

  /** The three digits determine the number. */
  lemma {:induction false} DigitsSumUp(n: nat)
    ensures n == n / 0x100_0000_0000 * 0x100_0000_0000 + n / 0x1_0000 % 0x100_0000 * 0x1_0000 + n % 0x1_0000
  {
    DivideTwice(n, 0x1_0000, 0x100_0000);
  }

  lemma {:induction false} DigitsOf(block: nat, txIndex: nat, vout: nat)
    requires txIndex < 0x100_0000 && vout < 0x1_0000
    ensures var n := block * 0x100_0000_0000 + txIndex * 0x1_0000 + vout;
            n / 0x100_0000_0000 == block && n / 0x1_0000 % 0x100_0000 == txIndex && n % 0x1_0000 == vout
  {
    var n := block * 0x100_0000_0000 + txIndex * 0x1_0000 + vout;
    QuotientUnique(n, 0x100_0000_0000, block, txIndex * 0x1_0000 + vout);
    QuotientUnique(n, 0x1_0000, block * 0x100_0000 + txIndex, vout);
    QuotientUnique(block * 0x100_0000 + txIndex, 0x100_0000, block, txIndex);
  }

  /** A text with all three parts in range yields an id from which the three parts are extracted again. */
  lemma {:induction false} PartsRecovered(block: UInt64, txIndex: UInt64, vout: UInt64)
    requires block < 0x100_0000 && txIndex <= MAX_SCID_TX_INDEX && vout <= MAX_SCID_VOUT_INDEX
    ensures var parsed := ToScid(Print(block) + "x" + Print(txIndex) + "x" + Print(vout));
            && parsed.Some?
            && BlockFromScid(parsed.value) == block
            && TxIndexFromScid(parsed.value) == txIndex
            && VoutFromScid(parsed.value) == vout
  {
    ParsesText(block, txIndex, vout);
    CombineIsSum(block, txIndex, vout);
    var scid := block * 0x100_0000_0000 + txIndex * 0x1_0000 + vout;
    DigitsOf(block, txIndex, vout);
    ExtractorsAreDigits(scid);
  }

  // ---- The parser, with its cursor over the parts ----

  class PartIterator {
    var rest: Option<string>

    constructor (s: string)
      ensures rest == Some(s)
    {
      rest := Some(s);
    }

    method Next() returns (part: Option<string>)
      modifies this
      ensures old(rest).None? ==> part == None && rest == None
      ensures old(rest).Some? ==> part == Some(SplitFirst(old(rest).value).0) && rest == SplitFirst(old(rest).value).1
    {
      if rest.None? {
        return None;
      }
      var s := rest.value;
      var i := 0;
      while i < |s| && s[i] != 'x'
        invariant 0 <= i <= |s|
        invariant forall k :: 0 <= k < i ==> s[k] != 'x'
      {
        i := i + 1;
      }
      FirstXIs(s, i);
      rest := if i < |s| then Some(s[i + 1..]) else None;
      part := Some(s[..i]);
    }
  }

  method ScidFromHumanReadableString(s: string) returns (scid: Option<UInt64>)
    ensures scid == ToScid(s)
  {
    var parts := new PartIterator(s);
    var part := parts.Next();
    var block := ParseUInt64(part.value);
    if block.None? {
      return None;
    }
    part := parts.Next();
    if part.None? {
      return None;
    }
    var txIndex := ParseUInt64(part.value);
    if txIndex.None? {
      return None;
    }
    part := parts.Next();
    if part.None? {
      return None;
    }
    var vout := ParseUInt64(part.value);
    if vout.None? {
      return None;
    }
    return Some(Combine(block.value, txIndex.value, vout.value));
  }
}
