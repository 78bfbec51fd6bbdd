/** Printing unsigned integers in decimal and parsing them the way Rust's `u64::from_str` does. */
module Decimals {
  import opened Types

  predicate IsDigit(c: char) { '0' <= c <= '9' }

  function DigitChar(d: nat): char
    requires d < 10
  {
    '0' + d as char
  }

  function DigitValue(c: char): nat
    requires IsDigit(c)
  {
    (c as int) - ('0' as int)
  }

  function Print(n: nat): (s: string)
    ensures s != [] && forall i :: 0 <= i < |s| ==> IsDigit(s[i])
  {
    if n < 10 then [DigitChar(n)] else Print(n / 10) + [DigitChar(n % 10)]
  }

  /** The value of a string of digits; the accumulation stops with an error once it leaves the width. */
  function ParseDigits(s: string, limit: nat): Option<nat> {
    if s == [] then Some(0)
    else
      match ParseDigits(s[..|s| - 1], limit)
      case None => None
      case Some(v) =>
        var last := s[|s| - 1];
        if IsDigit(last) && v * 10 + DigitValue(last) < limit then Some(v * 10 + DigitValue(last)) else None
  }

  /** An optional plus sign and at least one digit, without overflow. */
  function Parse(s: string, limit: nat): Option<nat> {
    var digits := if s != [] && s[0] == '+' then s[1..] else s;
    if digits == [] then None else ParseDigits(digits, limit)
  }

  lemma {:induction false} ParsePrintedDigits(n: nat, limit: nat)
    requires n < limit
    ensures ParseDigits(Print(n), limit) == Some(n)
  {
    var s := Print(n);
    if n < 10 {
      assert s[..|s| - 1] == [];
    } else {
      ParsePrintedDigits(n / 10, limit);
      assert s[..|s| - 1] == Print(n / 10);
    }
  }

  /** What is printed parses back, in any width that can hold it. */
  lemma {:induction false} ParsePrinted(n: nat, limit: nat)
    requires n < limit
    ensures Parse(Print(n), limit) == Some(n)
  {
    ParsePrintedDigits(n, limit);
    assert IsDigit(Print(n)[0]);
  }

  lemma {:induction false} ParseDigitsBounded(s: string, limit: nat)
    requires ParseDigits(s, limit).Some? && s != []
    ensures ParseDigits(s, limit).value < limit
  {
  }

  function ParseUInt64(s: string): (n: Option<UInt64>)
  {
    var n := Parse(s, UINT64_LIMIT);
    if n.Some? && s != [] then
      var digits := if s[0] == '+' then s[1..] else s;
      ParseDigitsBounded(digits, UINT64_LIMIT);
      Some(n.value)
    else None
  }

  lemma {:induction false} UInt64RoundTrip(n: UInt64)
    ensures ParseUInt64(Print(n)) == Some(n)
  {
    ParsePrinted(n, UINT64_LIMIT);
  }

  // ---- What a text means as a number ----

  predicate AllDigits(s: string) { forall i :: 0 <= i < |s| ==> IsDigit(s[i]) }

  /** The value of a string of digits, most significant first. */
  function Value(digits: string): nat
    requires AllDigits(digits)
  {
    if digits == [] then 0 else 10 * Value(digits[..|digits| - 1]) + DigitValue(digits[|digits| - 1])
  }

  /** At least one digit, after an optional plus sign, that together are worth n. */
  predicate Denotes(s: string, n: nat) {
    var digits := if s != [] && s[0] == '+' then s[1..] else s;
    digits != [] && AllDigits(digits) && Value(digits) == n
  }

  lemma {:induction false} ParsesDigitsIff(s: string, limit: nat, n: nat)
    requires n < limit
    ensures ParseDigits(s, limit) == Some(n) <==> AllDigits(s) && Value(s) == n
  {
    if s != [] {
      var init, last := s[..|s| - 1], s[|s| - 1];
      assert AllDigits(s) <==> AllDigits(init) && IsDigit(last);
      if AllDigits(s) && Value(s) == n {
        ParsesDigitsIff(init, limit, Value(init));
      }
      var parsed := ParseDigits(init, limit);
      if parsed.Some? && parsed.value < limit {
        ParsesDigitsIff(init, limit, parsed.value);
      }
    }
  }

  /** A 64-bit number is parsed exactly from the texts that denote it. */
  lemma {:induction false} ParsesUInt64Iff(s: string, n: UInt64)
    ensures ParseUInt64(s) == Some(n) <==> Denotes(s, n)
  {
    var digits := if s != [] && s[0] == '+' then s[1..] else s;
    ParsesDigitsIff(digits, UINT64_LIMIT, n);
  }
}
