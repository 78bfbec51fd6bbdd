/**
 The promise that authenticates a set of fee terms: a MAC over the terms' bytes, in hexadecimal.
 The MAC and the RFC 3339 rendering of a date are parameters.
 */
module FeeParams {
  import opened Types
  import opened Arithmetic

  type Mac = (seq<Byte>, seq<Byte>) -> seq<Byte>
  type DateText = DateTime -> seq<Byte>

  function Pow256(k: nat): (p: nat)
    ensures p > 0
  {
    if k == 0 then 1 else 256 * Pow256(k - 1)
  }

  /** The low `width` bytes of a number, most significant first. */
  function BigEndian(n: nat, width: nat): (bytes: seq<Byte>)
    ensures |bytes| == width
  {
    if width == 0 then [] else BigEndian(n / 256, width - 1) + [n % 256]
  }

  function HexDigit(d: nat): char
    requires d < 16
  {
    "0123456789abcdef"[d]
  }

  function Hex(bytes: seq<Byte>): (s: string)
    ensures |s| == 2 * |bytes|
  {
    if bytes == [] then []
    else
      var last := bytes[|bytes| - 1];
      Hex(bytes[..|bytes| - 1]) + [HexDigit(last / 16), HexDigit(last % 16)]
  }

  function Terms(params: OpeningFeeParams): RawOpeningFeeParams {
    RawOpeningFeeParams(params.minFeeMsat, params.proportional, params.validUntil, params.minLifetime,
                        params.maxClientToSelfDelay, params.minPaymentSizeMsat, params.maxPaymentSizeMsat)
  }

  /** The bytes fed to the MAC. Only the date has no fixed width. */
  function TermBytes(raw: RawOpeningFeeParams, dateText: DateText): seq<Byte> {
    BigEndian(raw.minFeeMsat, 8) + BigEndian(raw.proportional, 4) + dateText(raw.validUntil)
    + BigEndian(raw.minLifetime, 4) + BigEndian(raw.maxClientToSelfDelay, 4)
    + BigEndian(raw.minPaymentSizeMsat, 8) + BigEndian(raw.maxPaymentSizeMsat, 8)
  }

  function Promise(raw: RawOpeningFeeParams, secret: seq<Byte>, mac: Mac, dateText: DateText): string {
    Hex(mac(secret, TermBytes(raw, dateText)))
  }

  /** Not expired, and carrying the promise of its own terms. */
  predicate ValidParams(params: OpeningFeeParams, secret: seq<Byte>, now: nat, mac: Mac, dateText: DateText) {
    now <= params.validUntil.seconds && Promise(Terms(params), secret, mac, dateText) == params.promise
  }

  // ---- Properties ----

  lemma {:induction false} Pow256Values()
    ensures Pow256(4) == 0x1_0000_0000
    ensures Pow256(8) == UINT64_LIMIT
  {
    assert Pow256(2) == 0x1_0000;
    assert Pow256(4) == 0x1_0000_0000;
    assert Pow256(6) == 0x1_0000_0000_0000;
  }

  lemma {:induction false} BigEndianInjective(a: nat, b: nat, width: nat)
    requires a < Pow256(width) && b < Pow256(width)
    requires BigEndian(a, width) == BigEndian(b, width)
    ensures a == b
    decreases width
  {
    if width > 0 {
      var x, y := BigEndian(a, width), BigEndian(b, width);
      assert x[..width - 1] == BigEndian(a / 256, width - 1);
      assert y[..width - 1] == BigEndian(b / 256, width - 1);
      assert x[width - 1] == a % 256 && y[width - 1] == b % 256;
      BigEndianInjective(a / 256, b / 256, width - 1);
    }
  }

  lemma {:induction false} HexEnd(a: seq<Byte>, n: nat)
    requires |a| == n + 1
    ensures Hex(a)[..2 * n] == Hex(a[..n])
    ensures Hex(a)[2 * n] == HexDigit(a[n] / 16) && Hex(a)[2 * n + 1] == HexDigit(a[n] % 16)
  {
  }

  lemma {:induction false} HexInjective(a: seq<Byte>, b: seq<Byte>)
    requires Hex(a) == Hex(b)
    ensures a == b
    decreases |a|
  {
    assert |Hex(a)| == |Hex(b)|;
    if a != [] {
      var n := |a| - 1;
      assert Hex(a[..n]) == Hex(b[..n]) && a[n] == b[n] by {
        HexEnd(a, n);
        HexEnd(b, n);
        BytesAgree(a[n], b[n]);
      }
      HexInjective(a[..n], b[..n]);
      assert a == a[..n] + [a[n]] && b == b[..n] + [b[n]];
    }
  }

  lemma {:induction false} HexDigitInjective(a: nat, b: nat)
    requires a < 16 && b < 16 && HexDigit(a) == HexDigit(b)
    ensures a == b
  {
  }

  /** Two lower-case digits per byte, the higher one first. */
  lemma {:induction false} HexAt(bytes: seq<Byte>, i: nat)
    requires i < |bytes|
    ensures |Hex(bytes)| == 2 * |bytes|
    ensures Hex(bytes)[2 * i] == "0123456789abcdef"[bytes[i] / 16]
    ensures Hex(bytes)[2 * i + 1] == "0123456789abcdef"[bytes[i] % 16]
    decreases |bytes|
  {
    if i < |bytes| - 1 {
      HexAt(bytes[..|bytes| - 1], i);
    }
  }

  /** The digits of a number in base 256, the most significant first. */
  lemma {:induction false} BigEndianAt(n: nat, width: nat, i: nat)
    requires i < width
    ensures BigEndian(n, width)[i] == n / Pow256(width - 1 - i) % 256
    decreases width
  {
    if i < width - 1 {
      BigEndianAt(n / 256, width - 1, i);
      DivideTwice(n, 256, Pow256(width - 2 - i));
    }
  }

  lemma {:induction false} BytesAgree(a: Byte, b: Byte)
    requires HexDigit(a / 16) == HexDigit(b / 16) && HexDigit(a % 16) == HexDigit(b % 16)
    ensures a == b
  {
    HexDigitInjective(a / 16, b / 16);
    HexDigitInjective(a % 16, b % 16);
  }

  /** A fixed-width head and tail pin down the middle, whatever its length. */
  lemma {:induction false} MiddleDetermined(
    head: seq<Byte>, middle: seq<Byte>, tail: seq<Byte>, head': seq<Byte>, middle': seq<Byte>, tail': seq<Byte>)
    requires |head| == |head'| && |tail| == |tail'|
    requires head + middle + tail == head' + middle' + tail'
    ensures head == head' && middle == middle' && tail == tail'
  {
    var s, s' := head + middle + tail, head' + middle' + tail';
    assert |middle| == |middle'|;
    assert head == s[..|head|] && head' == s'[..|head|];
    assert middle == s[|head|..|head| + |middle|] && middle' == s'[|head|..|head| + |middle|];
    assert tail == s[|head| + |middle|..] && tail' == s'[|head| + |middle|..];
  }

  lemma {:induction false} ConcatDetermined(a: seq<Byte>, b: seq<Byte>, a': seq<Byte>, b': seq<Byte>)
    requires |a| == |a'| && a + b == a' + b'
    ensures a == a' && b == b'
  {
    assert a == (a + b)[..|a|] && a' == (a' + b')[..|a|];
    assert b == (a + b)[|a|..] && b' == (a' + b')[|a|..];
  }

  function Head(raw: RawOpeningFeeParams): seq<Byte> {
    BigEndian(raw.minFeeMsat, 8) + BigEndian(raw.proportional, 4)
  }

  function Tail(raw: RawOpeningFeeParams): seq<Byte> {
    BigEndian(raw.minLifetime, 4) + (BigEndian(raw.maxClientToSelfDelay, 4)
    + (BigEndian(raw.minPaymentSizeMsat, 8) + BigEndian(raw.maxPaymentSizeMsat, 8)))
  }

  ghost predicate InjectiveDates(dateText: DateText) {
    forall a, b :: dateText(a) == dateText(b) ==> a == b
  }

  /** Terms that differ in any of the seven fields feed different bytes to the MAC. */
  lemma {:induction false} TermBytesInjective(a: RawOpeningFeeParams, b: RawOpeningFeeParams, dateText: DateText)
    requires InjectiveDates(dateText)
    requires TermBytes(a, dateText) == TermBytes(b, dateText)
    ensures a == b
  {
    assert TermBytes(a, dateText) == Head(a) + dateText(a.validUntil) + Tail(a);
    assert TermBytes(b, dateText) == Head(b) + dateText(b.validUntil) + Tail(b);
    MiddleDetermined(Head(a), dateText(a.validUntil), Tail(a), Head(b), dateText(b.validUntil), Tail(b));
    HeadInjective(a, b);
    TailInjective(a, b);
  }

  lemma {:induction false} HeadInjective(a: RawOpeningFeeParams, b: RawOpeningFeeParams)
    requires Head(a) == Head(b)
    ensures a.minFeeMsat == b.minFeeMsat && a.proportional == b.proportional
  {
    Pow256Values();
    ConcatDetermined(BigEndian(a.minFeeMsat, 8), BigEndian(a.proportional, 4),
                     BigEndian(b.minFeeMsat, 8), BigEndian(b.proportional, 4));
    BigEndianInjective(a.minFeeMsat, b.minFeeMsat, 8);
    BigEndianInjective(a.proportional, b.proportional, 4);
  }

  lemma {:induction false} TailInjective(a: RawOpeningFeeParams, b: RawOpeningFeeParams)
    requires Tail(a) == Tail(b)
    ensures a.minLifetime == b.minLifetime && a.maxClientToSelfDelay == b.maxClientToSelfDelay
    ensures a.minPaymentSizeMsat == b.minPaymentSizeMsat && a.maxPaymentSizeMsat == b.maxPaymentSizeMsat
  {
    Pow256Values();
    var sizesA := BigEndian(a.minPaymentSizeMsat, 8) + BigEndian(a.maxPaymentSizeMsat, 8);
    var sizesB := BigEndian(b.minPaymentSizeMsat, 8) + BigEndian(b.maxPaymentSizeMsat, 8);
    ConcatDetermined(BigEndian(a.minLifetime, 4), BigEndian(a.maxClientToSelfDelay, 4) + sizesA,
                     BigEndian(b.minLifetime, 4), BigEndian(b.maxClientToSelfDelay, 4) + sizesB);
    ConcatDetermined(BigEndian(a.maxClientToSelfDelay, 4), sizesA, BigEndian(b.maxClientToSelfDelay, 4), sizesB);
    ConcatDetermined(BigEndian(a.minPaymentSizeMsat, 8), BigEndian(a.maxPaymentSizeMsat, 8),
                     BigEndian(b.minPaymentSizeMsat, 8), BigEndian(b.maxPaymentSizeMsat, 8));
    BigEndianInjective(a.minLifetime, b.minLifetime, 4);
    BigEndianInjective(a.maxClientToSelfDelay, b.maxClientToSelfDelay, 4);
    BigEndianInjective(a.minPaymentSizeMsat, b.minPaymentSizeMsat, 8);
    BigEndianInjective(a.maxPaymentSizeMsat, b.maxPaymentSizeMsat, 8);
  }

  /** Two different messages that the MAC does not tell apart. */
  predicate Collide(mac: Mac, secret: seq<Byte>, x: seq<Byte>, y: seq<Byte>) {
    x != y && mac(secret, x) == mac(secret, y)
  }

  /** The parameters minted for some terms. */
  function Minted(raw: RawOpeningFeeParams, secret: seq<Byte>, mac: Mac, dateText: DateText): OpeningFeeParams {
    OpeningFeeParams(raw.minFeeMsat, raw.proportional, raw.validUntil, raw.minLifetime, raw.maxClientToSelfDelay,
                     raw.minPaymentSizeMsat, raw.maxPaymentSizeMsat, Promise(raw, secret, mac, dateText))
  }

  function MintedMenu(menu: seq<RawOpeningFeeParams>, secret: seq<Byte>, mac: Mac, dateText: DateText)
    : (minted: seq<OpeningFeeParams>)
    ensures |minted| == |menu|
  {
    seq(|menu|, i requires 0 <= i < |menu| => Minted(menu[i], secret, mac, dateText))
  }

  /** Issued parameters are accepted until they expire, and not after. */
  lemma {:induction false} MintedValidUntilExpiry(
    raw: RawOpeningFeeParams, secret: seq<Byte>, now: nat, mac: Mac, dateText: DateText)
    ensures ValidParams(Minted(raw, secret, mac, dateText), secret, now, mac, dateText) <==>
            now <= raw.validUntil.seconds
  {
    assert Terms(Minted(raw, secret, mac, dateText)) == raw;
  }

  /** Entry i of a minted menu has the terms of entry i of the LSP's menu, and is accepted until it expires. */
  lemma {:induction false} MenuIsIssued(
    menu: seq<RawOpeningFeeParams>, i: nat, secret: seq<Byte>, now: nat, mac: Mac, dateText: DateText)
    requires i < |menu|
    ensures var minted := MintedMenu(menu, secret, mac, dateText);
            && |minted| == |menu| && Terms(minted[i]) == menu[i]
            && (ValidParams(minted[i], secret, now, mac, dateText) <==> now <= menu[i].validUntil.seconds)
  {
    MintedValidUntilExpiry(menu[i], secret, now, mac, dateText);
  }

  /**
   A promise minted for some terms is accepted, until expiry, with these terms and with no others, unless the
   bytes of the others collide with theirs under the MAC.
   */
  lemma {:induction false} PromiseBindsTerms(
    raw: RawOpeningFeeParams, params: OpeningFeeParams, secret: seq<Byte>, now: nat, mac: Mac, dateText: DateText)
    requires InjectiveDates(dateText)
    requires params.promise == Minted(raw, secret, mac, dateText).promise
    ensures ValidParams(params, secret, now, mac, dateText) <==>
            && now <= params.validUntil.seconds
            && (params == Minted(raw, secret, mac, dateText)
                || Collide(mac, secret, TermBytes(Terms(params), dateText), TermBytes(raw, dateText)))
  {
    var x, y := TermBytes(Terms(params), dateText), TermBytes(raw, dateText);
    if ValidParams(params, secret, now, mac, dateText) {
      HexInjective(mac(secret, x), mac(secret, y));
      if x == y {
        TermBytesInjective(Terms(params), raw, dateText);
      }
    }
  }

  // ---- The engine and its two users ----

  class HmacEngine {
    const key: seq<Byte>
    var message: seq<Byte>

    constructor (key: seq<Byte>)
      ensures this.key == key && message == []
    {
      this.key := key;
      message := [];
    }

    method Input(data: seq<Byte>)
      modifies this
      ensures message == old(message) + data
    {
      message := message + data;
    }
  }

  method HexStr(value: seq<Byte>) returns (res: string)
    ensures res == Hex(value)
  {
    res := "";
    for i := 0 to |value|
      invariant res == Hex(value[..i])
    {
      assert value[..i + 1][..i] == value[..i];
      res := res + [HexDigit(value[i] / 16), HexDigit(value[i] % 16)];
    }
    assert value[..|value|] == value;
  }

  method IntoOpeningFeeParams(raw: RawOpeningFeeParams, promiseSecret: seq<Byte>, mac: Mac, dateText: DateText)
    returns (params: OpeningFeeParams)
    ensures params == Minted(raw, promiseSecret, mac, dateText)
  {
    var hmac := new HmacEngine(promiseSecret);
    hmac.Input(BigEndian(raw.minFeeMsat, 8));
    hmac.Input(BigEndian(raw.proportional, 4));
    hmac.Input(dateText(raw.validUntil));
    hmac.Input(BigEndian(raw.minLifetime, 4));
    hmac.Input(BigEndian(raw.maxClientToSelfDelay, 4));
    hmac.Input(BigEndian(raw.minPaymentSizeMsat, 8));
    hmac.Input(BigEndian(raw.maxPaymentSizeMsat, 8));
    assert hmac.message == TermBytes(raw, dateText);
    var promise := HexStr(mac(hmac.key, hmac.message));
    params := OpeningFeeParams(raw.minFeeMsat, raw.proportional, raw.validUntil, raw.minLifetime,
                               raw.maxClientToSelfDelay, raw.minPaymentSizeMsat, raw.maxPaymentSizeMsat, promise);
  }

  /** Nothing is returned where the conversion of the expiry to an unsigned number panics. */
  method IsValidOpeningFeeParams(
    feeParams: OpeningFeeParams, promiseSecret: seq<Byte>, secondsSinceEpoch: nat, mac: Mac, dateText: DateText)
    returns (valid: Option<bool>)
    ensures valid.None? <==> feeParams.validUntil.seconds < 0
    ensures valid.Some? ==> (valid.value <==> ValidParams(feeParams, promiseSecret, secondsSinceEpoch, mac, dateText))
  {
    if feeParams.validUntil.seconds < 0 {
      return None;
    }
    var validUntilSecondsSinceEpoch: nat := feeParams.validUntil.seconds;
    if secondsSinceEpoch > validUntilSecondsSinceEpoch {
      return Some(false);
    }
    var hmac := new HmacEngine(promiseSecret);
    hmac.Input(BigEndian(feeParams.minFeeMsat, 8));
    hmac.Input(BigEndian(feeParams.proportional, 4));
    hmac.Input(dateText(feeParams.validUntil));
    hmac.Input(BigEndian(feeParams.minLifetime, 4));
    hmac.Input(BigEndian(feeParams.maxClientToSelfDelay, 4));
    hmac.Input(BigEndian(feeParams.minPaymentSizeMsat, 8));
    hmac.Input(BigEndian(feeParams.maxPaymentSizeMsat, 8));
    assert hmac.message == TermBytes(Terms(feeParams), dateText);
    var promise := HexStr(mac(hmac.key, hmac.message));
    return Some(promise == feeParams.promise);
  }
}
