/** Decimal integer text: what printf's %llu and %lld write, and what atoll,
    strtoll and strtoull (the readers behind CPLAtoGIntBig and XMLInit) read
    back. */
module Decimal {
  import opened PamTypes

  predicate IsDigit(c: char) { '0' <= c <= '9' }

  function DigitChar(d: nat): (c: char)
    requires d < 10
    ensures IsDigit(c)
  {
    ('0' as int + d) as char
  }

  function DigitValue(c: char): (d: nat)
    requires IsDigit(c)
    ensures d < 10
  {
    c as int - '0' as int
  }

  predicate AllDigits(s: string) {
    forall i :: 0 <= i < |s| ==> IsDigit(s[i])
  }

  /** printf("%llu", v): the digits of v, most significant first, without
      leading zeros. */
  function DecimalString(v: nat): (s: string)
    ensures 1 <= |s| && AllDigits(s)
  {
    if v < 10 then [DigitChar(v)] else DecimalString(v / 10) + [DigitChar(v % 10)]
  }

  /** printf("%lld", v). */
  function SignedDecimalString(v: int): (s: string)
    ensures 1 <= |s|
  {
    if v < 0 then "-" + DecimalString(-v) else DecimalString(v)
  }

  /** The value of a run of digits, most significant first. */
  function DigitsValue(s: string): nat
    requires AllDigits(s)
  {
    if s == [] then 0 else 10 * DigitsValue(s[..|s| - 1]) + DigitValue(s[|s| - 1])
  }

  /** The length of the run of digits at the start of s. */
  function DigitRun(s: string): (n: nat)
    ensures n <= |s| && AllDigits(s[..n])
    ensures n < |s| ==> !IsDigit(s[n])
  {
    if s == [] || !IsDigit(s[0]) then 0
    else
      var m := DigitRun(s[1..]);
      assert s[..1 + m] == [s[0]] + s[1..][..m];
      1 + m
  }

  /** The number of bytes of c in UTF-8. */
  function Utf8Width(c: char): nat {
    if c as int < 0x80 then 1 else if c as int < 0x800 then 2 else if c as int < 0x1_0000 then 3 else 4
  }

  /** strlen of the UTF-8 text s: one byte per ASCII character and up to
      four for any other. */
  function Utf8Length(s: string): (n: nat)
    ensures |s| <= n <= 4 * |s|
    ensures (forall i :: 0 <= i < |s| ==> s[i] as int < 0x80) ==> n == |s|
  {
    if s == [] then 0 else Utf8Width(s[0]) + Utf8Length(s[1..])
  }

  /** C's isspace in the "C" locale. */
  predicate IsSpace(c: char) {
    c == ' ' || c == '\t' || c == '\n' || c == '\r' || c as int == 11 || c as int == 12
  }

  /** The length of the run of white space at the start of s. */
  function SpaceRun(s: string): (n: nat)
    ensures n <= |s|
  {
    if s != [] && IsSpace(s[0]) then 1 + SpaceRun(s[1..]) else 0
  }

  /** What strtoll and strtoull read before range handling: leading white
      space, an optional sign, then as many digits as follow. */
  datatype Scanned = Scanned(negative: bool, magnitude: nat)

  function Scan(s: string): Scanned {
    var t := s[SpaceRun(s)..];
    if t != [] && (t[0] == '-' || t[0] == '+') then
      var u := t[1..];
      Scanned(t[0] == '-', DigitsValue(u[..DigitRun(u)]))
    else
      Scanned(false, DigitsValue(t[..DigitRun(t)]))
  }

  /** atoll(s), that is strtoll(s, NULL, 10) in glibc, which saturates at the
      ends of the int64 range. */
  function AtoLL(s: string): (v: Int64)
    ensures !Scan(s).negative && Scan(s).magnitude < TWO_63 ==> v == Scan(s).magnitude
  {
    var sc := Scan(s);
    if sc.negative then (if sc.magnitude > TWO_63 then -TWO_63 else 0 - sc.magnitude)
    else (if sc.magnitude >= TWO_63 then TWO_63 - 1 else sc.magnitude)
  }

  /** atoi(s), that is (int) strtol(s, NULL, 10) with a 64-bit long. */
  function AtoI(s: string): (v: Int32)
    ensures -0x8000_0000 <= AtoLL(s) < 0x8000_0000 ==> v == AtoLL(s)
  {
    ToInt32(AtoLL(s))
  }

  /** strtoull(s, NULL, 10): saturates at UINT64_MAX, and negates a value read
      after a '-' modulo 2^64. */
  function StrToULL(s: string): (v: UInt64)
    ensures !Scan(s).negative && Scan(s).magnitude < TWO_64 ==> v == Scan(s).magnitude
  {
    var sc := Scan(s);
    if sc.magnitude >= TWO_64 then TWO_64 - 1
    else if sc.negative && sc.magnitude > 0 then TWO_64 - sc.magnitude
    else sc.magnitude
  }

  /** Reading the digits printf writes gives back the number. */
  lemma {:induction false} DigitsValueOfDecimal(v: nat)
    ensures DigitsValue(DecimalString(v)) == v
  {
    var s := DecimalString(v);
    if v >= 10 {
      assert s[..|s| - 1] == DecimalString(v / 10);
      DigitsValueOfDecimal(v / 10);
    }
  }

  /** A run of digits followed by a non-digit is read in full and no further. */
  lemma {:induction false} DigitRunOfDigits(s: string, rest: string)
    requires AllDigits(s)
    requires rest == [] || !IsDigit(rest[0])
    ensures DigitRun(s + rest) == |s|
    ensures (s + rest)[..|s|] == s
  {
    if s != [] {
      assert (s + rest)[1..] == s[1..] + rest;
      DigitRunOfDigits(s[1..], rest);
    }
  }

  /** strtoll and strtoull read the %llu text of v back as v, whatever non-digit
      text follows it. */
  lemma ScanDecimal(v: nat, rest: string)
    requires rest == [] || !IsDigit(rest[0])
    ensures Scan(DecimalString(v) + rest) == Scanned(false, v)
  {
    var s := DecimalString(v) + rest;
    assert !IsSpace(s[0]) && s[0] != '-' && s[0] != '+';
    assert SpaceRun(s) == 0;
    DigitRunOfDigits(DecimalString(v), rest);
    DigitsValueOfDecimal(v);
  }

  /** atoll reads the %lld text of any int64 back exactly. */
  lemma ReadSignedDecimal(v: Int64, rest: string)
    requires rest == [] || !IsDigit(rest[0])
    ensures AtoLL(SignedDecimalString(v) + rest) == v
  {
    if v < 0 {
      var m: nat := 0 - v as int;
      assert SignedDecimalString(v) + rest == "-" + DecimalString(m) + rest;
      ScanNegativeDecimal(m, rest);
    } else {
      assert SignedDecimalString(v) + rest == DecimalString(v) + rest;
      ScanDecimal(v, rest);
    }
  }

  lemma ScanNegativeDecimal(m: nat, rest: string)
    requires rest == [] || !IsDigit(rest[0])
    ensures Scan("-" + DecimalString(m) + rest) == Scanned(true, m)
  {
    var s := "-" + DecimalString(m) + rest;
    assert SpaceRun(s) == 0;
    assert s[1..] == DecimalString(m) + rest;
    DigitRunOfDigits(DecimalString(m), rest);
    DigitsValueOfDecimal(m);
  }

  /** atoi reads the %d text of any int back exactly. */
  lemma ReadInt32(v: Int32, rest: string)
    requires rest == [] || !IsDigit(rest[0])
    ensures AtoI(SignedDecimalString(v) + rest) == v
  {
    ReadSignedDecimal(v, rest);
  }

  /** strtoull reads the %llu text of any uint64 back exactly. */
  lemma ReadUnsignedDecimal(v: UInt64, rest: string)
    requires rest == [] || !IsDigit(rest[0])
    ensures StrToULL(DecimalString(v) + rest) == v
  {
    ScanDecimal(v, rest);
  }

  function Pow10(k: nat): (p: nat)
    ensures 1 <= p
  {
    if k == 0 then 1 else 10 * Pow10(k - 1)
  }

  /** A number below 10^k takes at most k digits. */
  lemma {:induction false} DecimalLength(v: nat, k: nat)
    requires 1 <= k && v < Pow10(k)
    ensures |DecimalString(v)| <= k
  {
    if v >= 10 {
      assert k >= 2 && v < 10 * Pow10(k - 1);
      assert v / 10 < Pow10(k - 1);
      DecimalLength(v / 10, k - 1);
    }
  }

  /** The %llu text of a uint64 is at most 20 characters long. */
  lemma UInt64DecimalLength(v: UInt64)
    ensures |DecimalString(v)| <= 20
  {
    assert Pow10(10) == 10_000_000_000;
    assert Pow10(15) == 1_000_000_000_000_000;
    assert Pow10(20) == 100_000_000_000_000_000_000;
    DecimalLength(v, 20);
  }
}
