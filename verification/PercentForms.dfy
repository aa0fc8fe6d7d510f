/**
  What the parts of the percent encoding are: hexadecimal digits, the bytes that
  are escaped, and UTF-8 as section 3 of RFC 3629 defines it.
*/
module PercentForms {
  import opened Options
  import opened PercentText

  // ---- hexadecimal -------------------------------------------------------

  /** The digit as an escape is written with it, in upper case. */
  function UpperDigit(d: byte): byte
    requires d < 16
  {
    if d < 10 then '0' as byte + d else 'A' as byte + (d - 10)
  }

  /** A byte is read as a digit exactly when it is that digit in either case. */
  lemma DigitsExactly(b: byte, d: byte)
    ensures HexDigit(b) == Some(d) <==>
              d < 16 && (b == UpperDigit(d) || (d >= 10 && b as int == UpperDigit(d) as int + 32))
  {
  }

  /** Three bytes are read as an escape exactly of the byte whose two digits follow the percent sign. */
  lemma EscapesExactly(high: byte, low: byte, b: byte)
    ensures EscapeValue([PERCENT, high, low]) == Some(b) <==>
              HexDigit(high) == Some(b / 16) && HexDigit(low) == Some(b % 16)
  {
    hide HexDigit;
    DigitIsSmall(high);
    DigitIsSmall(low);
    if HexDigit(high).Some? && HexDigit(low).Some? {
      var n := HexDigit(high).value as int * 16 + HexDigit(low).value as int;
      assert n < 256 && n / 16 == HexDigit(high).value as int && n % 16 == HexDigit(low).value as int;
      assert EscapeByte(HexDigit(high).value, HexDigit(low).value) as int == n;
    }
  }

  lemma DigitIsSmall(b: byte)
    ensures HexDigit(b).Some? ==> HexDigit(b).value < 16
  {
  }

  /** The four bytes with a meaning in a query that a hash can contain, or an escape itself. */
  predicate Special(b: byte) {
    b == '%' as byte || b == '+' as byte || b == '/' as byte || b == '=' as byte
  }

  function SpelledByte(b: byte): Bytes {
    if Special(b) then [PERCENT, UpperDigit(b / 16), UpperDigit(b % 16)] else [b]
  }

  /** `s` with each special byte spelled as an escape, and every other byte as it is. */
  ghost predicate EscapesOnlySpecial(s: Bytes, e: Bytes)
    decreases |s|
  {
    if s == [] then e == []
    else
      && |SpelledByte(s[0])| <= |e| && e[..|SpelledByte(s[0])|] == SpelledByte(s[0])
      && EscapesOnlySpecial(s[1..], e[|SpelledByte(s[0])|..])
  }

  lemma {:induction false} EncodingExactly(s: Bytes)
    ensures EscapesOnlySpecial(s, PercentEncoded(s))
    ensures forall i :: 0 <= i < |PercentEncoded(s)| ==>
              PercentEncoded(s)[i] !in {'+' as byte, '/' as byte, '=' as byte}
    decreases |s|
  {
    if s != [] {
      EncodingExactly(s[1..]);
      assert Escaped(s[0]) == SpelledByte(s[0]);
      assert PercentEncoded(s)[|Escaped(s[0])|..] == PercentEncoded(s[1..]);
    }
  }

  // ---- UTF-8 -------------------------------------------------------------

  predicate Scalar(c: nat) {
    c <= 0x10FFFF && !(0xD800 <= c <= 0xDFFF)
  }

  function Utf8(c: nat): Bytes
    requires Scalar(c)
  {
    if c < 0x80 then [c as byte]
    else if c < 0x800 then [(0xC0 + c / 64) as byte, (0x80 + c % 64) as byte]
    else if c < 0x10000 then [(0xE0 + c / 4096) as byte, (0x80 + c / 64 % 64) as byte, (0x80 + c % 64) as byte]
    else
      [(0xF0 + c / 262144) as byte, (0x80 + c / 4096 % 64) as byte, (0x80 + c / 64 % 64) as byte, (0x80 + c % 64) as byte]
  }

  function Utf8Of(cs: seq<nat>): Bytes
    requires forall i :: 0 <= i < |cs| ==> Scalar(cs[i])
  {
    if cs == [] then [] else Utf8(cs[0]) + Utf8Of(cs[1..])
  }

  ghost predicate Encodes(cs: seq<nat>, s: Bytes) {
    (forall i :: 0 <= i < |cs| ==> Scalar(cs[i])) && Utf8Of(cs) == s
  }

  lemma LeadOf(c: nat, rest: Bytes)
    requires Scalar(c)
    ensures LeadLength(Utf8(c) + rest) == |Utf8(c)| && (Utf8(c) + rest)[|Utf8(c)|..] == rest
  {
    if c >= 0x10000 { FourLead(c, rest); } else if c >= 0x800 { ThreeLead(c, rest); }
  }

  lemma ThreeLead(c: nat, rest: Bytes)
    requires Scalar(c) && 0x800 <= c < 0x10000
    ensures LeadLength(Utf8(c) + rest) == 3
  {
    var s := Utf8(c) + rest;
    assert s[0] as int == 0xE0 + c / 4096 && s[1] as int == 0x80 + c / 64 % 64 && s[2] as int == 0x80 + c % 64;
  }

  lemma FourLead(c: nat, rest: Bytes)
    requires Scalar(c) && 0x10000 <= c
    ensures LeadLength(Utf8(c) + rest) == 4
  {
    var s := Utf8(c) + rest;
    assert s[0] as int == 0xF0 + c / 262144 && s[1] as int == 0x80 + c / 4096 % 64;
    assert s[2] as int == 0x80 + c / 64 % 64 && s[3] as int == 0x80 + c % 64;
  }

  function Lead(s: Bytes): nat
    requires s != []
  {
    match LeadLength(s)
    case 1 => s[0] as nat
    case 2 => (s[0] as int - 0xC0) * 64 + (s[1] as int - 0x80)
    case 3 => (s[0] as int - 0xE0) * 4096 + (s[1] as int - 0x80) * 64 + (s[2] as int - 0x80)
    case 4 =>
      (s[0] as int - 0xF0) * 262144 + (s[1] as int - 0x80) * 4096 + (s[2] as int - 0x80) * 64 + (s[3] as int - 0x80)
    case _ => 0
  }

  /** The sixty-fourths of a number put together from them. */
  lemma Sixes(a: nat, b: nat, c: nat, d: nat)
    requires a < 64 && b < 64 && c < 64 && d < 64
    ensures var n := a * 262144 + b * 4096 + c * 64 + d;
            n % 64 == d && n / 64 % 64 == c && n / 4096 % 64 == b && n / 262144 == a
  {
    var n := a * 262144 + b * 4096 + c * 64 + d;
    assert n / 64 == a * 4096 + b * 64 + c;
    assert n / 4096 == a * 64 + b;
  }

  lemma LeadRead(s: Bytes)
    requires s != [] && LeadLength(s) > 0
    ensures LeadLength(s) <= |s| && Scalar(Lead(s)) && Utf8(Lead(s)) == s[..LeadLength(s)]
  {
    match LeadLength(s)
    case 1 =>
    case 2 => Sixes(0, 0, s[0] as int - 0xC0, s[1] as int - 0x80);
    case 3 => ThreeRead(s);
    case 4 => FourRead(s);
  }

  lemma ThreeRead(s: Bytes)
    requires s != [] && LeadLength(s) == 3
    ensures |s| >= 3 && Scalar(Lead(s)) && Utf8(Lead(s)) == s[..3]
  {
    var b, c, d := s[0] as int - 0xE0, s[1] as int - 0x80, s[2] as int - 0x80;
    Sixes(0, b, c, d);
    var n := Lead(s);
    assert n == b * 4096 + c * 64 + d && 0x800 <= n < 0x10000;
    assert n / 4096 == b;
  }

  lemma FourRead(s: Bytes)
    requires s != [] && LeadLength(s) == 4
    ensures |s| >= 4 && Scalar(Lead(s)) && Utf8(Lead(s)) == s[..4]
  {
    var a, b, c, d := s[0] as int - 0xF0, s[1] as int - 0x80, s[2] as int - 0x80, s[3] as int - 0x80;
    Sixes(a, b, c, d);
    assert Lead(s) == a * 262144 + b * 4096 + c * 64 + d && 0x10000 <= Lead(s) <= 0x10FFFF;
  }

  /** Bytes are taken as text exactly when they are the UTF-8 of some scalar values. */
  lemma TextExactly(s: Bytes)
    ensures ValidUtf8(s) <==> exists cs :: Encodes(cs, s)
  {
    if ValidUtf8(s) {
      var cs := Read(s);
    }
    if cs :| Encodes(cs, s) {
      Written(cs);
    }
  }

  lemma {:induction false} Read(s: Bytes) returns (cs: seq<nat>)
    requires ValidUtf8(s)
    ensures Encodes(cs, s)
    decreases |s|
  {
    if s == [] {
      cs := [];
    } else {
      LeadRead(s);
      var rest := Read(s[LeadLength(s)..]);
      cs := [Lead(s)] + rest;
      assert cs[1..] == rest;
      assert s == s[..LeadLength(s)] + s[LeadLength(s)..];
    }
  }

  lemma {:induction false} Written(cs: seq<nat>)
    requires forall i :: 0 <= i < |cs| ==> Scalar(cs[i])
    ensures ValidUtf8(Utf8Of(cs))
    decreases |cs|
  {
    if cs != [] {
      Written(cs[1..]);
      LeadOf(cs[0], Utf8Of(cs[1..]));
    }
  }
}
