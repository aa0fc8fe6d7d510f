/**
  Percent escapes (section 2.1 of RFC 3986): the encoding of a hash inside a
  query, its decoding exactly once, and the judgement of text that arrived
  encoded. Text is the bytes of its UTF-8 form.
*/
module PercentText {
  import opened Options
  import opened StorePaths

  newtype byte = b: int | 0 <= b < 256

  type Bytes = seq<byte>

  const PERCENT: byte := '%' as byte

  // ---- UTF-8 -------------------------------------------------------------

  predicate Continues(b: byte) {
    0x80 <= b <= 0xBF
  }

  /** The length of the well-formed sequence the bytes start with, or 0 when they start with none. */
  function LeadLength(s: Bytes): nat
    requires s != []
  {
    if s[0] <= 0x7F then 1
    else if 0xC2 <= s[0] <= 0xDF then (if |s| >= 2 && Continues(s[1]) then 2 else 0)
    else if 0xE0 <= s[0] <= 0xEF then
      if |s| >= 3 && Continues(s[1]) && Continues(s[2])
         && (s[0] == 0xE0 ==> s[1] >= 0xA0) && (s[0] == 0xED ==> s[1] <= 0x9F) then 3 else 0
    else if 0xF0 <= s[0] <= 0xF4 then
      if |s| >= 4 && Continues(s[1]) && Continues(s[2]) && Continues(s[3])
         && (s[0] == 0xF0 ==> s[1] >= 0x90) && (s[0] == 0xF4 ==> s[1] <= 0x8F) then 4 else 0
    else 0
  }

  predicate ValidUtf8(s: Bytes) {
    s == [] || (LeadLength(s) > 0 && ValidUtf8(s[LeadLength(s)..]))
  }

  // ---- encoding ----------------------------------------------------------

  function Escaped(b: byte): Bytes {
    if b == PERCENT then ['%' as byte, '2' as byte, '5' as byte]
    else if b == '+' as byte then ['%' as byte, '2' as byte, 'B' as byte]
    else if b == '/' as byte then ['%' as byte, '2' as byte, 'F' as byte]
    else if b == '=' as byte then ['%' as byte, '3' as byte, 'D' as byte]
    else [b]
  }

  function PercentEncoded(s: Bytes): Bytes {
    if s == [] then [] else Escaped(s[0]) + PercentEncoded(s[1..])
  }

  // ---- decoding ----------------------------------------------------------

  function HexDigit(b: byte): Option<byte> {
    if '0' as byte <= b <= '9' as byte then Some(b - '0' as byte)
    else if 'a' as byte <= b <= 'f' as byte then Some(b - 'a' as byte + 10)
    else if 'A' as byte <= b <= 'F' as byte then Some(b - 'A' as byte + 10)
    else None
  }

  /** The byte a percent escape at the start of `s` stands for. */
  function EscapeValue(s: Bytes): Option<byte> {
    if |s| < 3 || s[0] != PERCENT || HexDigit(s[1]).None? || HexDigit(s[2]).None? then None
    else Some(EscapeByte(HexDigit(s[1]).value, HexDigit(s[2]).value))
  }

  function EscapeByte(high: byte, low: byte): byte {
    ((high as int * 16 + low as int) % 256) as byte
  }

  function Unescaped(s: Bytes): Option<Bytes> {
    if s == [] then Some([])
    else if s[0] == PERCENT then
      if EscapeValue(s).None? then None
      else
        match Unescaped(s[3..])
        case None => None
        case Some(rest) => Some([EscapeValue(s).value] + rest)
    else
      match Unescaped(s[1..])
      case None => None
      case Some(rest) => Some([s[0]] + rest)
  }

  /** Nothing is decoded when an escape is malformed, the result is not UTF-8, or a percent sign survives. */
  function DecodedOnce(s: Bytes): Option<Bytes> {
    match Unescaped(s)
    case None => None
    case Some(decoded) => if ValidUtf8(decoded) && PERCENT !in decoded then Some(decoded) else None
  }

  // ---- what decoding means -----------------------------------------------

  /** `s` spells `d`: byte for byte, each either itself or as an escape, and a percent sign only in escapes. */
  ghost predicate Spells(s: Bytes, d: Bytes)
    decreases |d|
  {
    if d == [] then s == []
    else
      || (s != [] && s[0] == d[0] && s[0] != PERCENT && Spells(s[1..], d[1..]))
      || (|s| >= 3 && EscapeValue(s) == Some(d[0]) && Spells(s[3..], d[1..]))
  }

  lemma {:induction false} UnescapedSpells(s: Bytes, d: Bytes)
    ensures Unescaped(s) == Some(d) <==> Spells(s, d)
    decreases |s|
  {
    if s == [] {
    } else if s[0] == PERCENT {
      if EscapeValue(s).Some? && d != [] {
        UnescapedSpells(s[3..], d[1..]);
        assert d == [d[0]] + d[1..];
      }
    } else if d != [] {
      UnescapedSpells(s[1..], d[1..]);
      assert d == [d[0]] + d[1..];
    }
  }

  /** Text decodes to `d` exactly when it spells `d` and `d` is text with no percent sign left. */
  lemma DecodedExactly(s: Bytes, d: Bytes)
    ensures DecodedOnce(s) == Some(d) <==> Spells(s, d) && ValidUtf8(d) && PERCENT !in d
  {
    UnescapedSpells(s, d);
  }

  // ---- round trips -------------------------------------------------------

  lemma EscapedHead(b: byte, rest: Bytes)
    ensures Unescaped(Escaped(b) + rest)
              == match Unescaped(rest) case None => None case Some(d) => Some([b] + d)
  {
    var s := Escaped(b) + rest;
    if |Escaped(b)| == 3 {
      assert s[3..] == rest;
      assert EscapeValue(s) == Some(b);
    } else {
      assert s[1..] == rest;
    }
  }

  lemma {:induction false} EncodingUnescapes(s: Bytes)
    ensures Unescaped(PercentEncoded(s)) == Some(s)
    decreases |s|
  {
    if s != [] {
      EncodingUnescapes(s[1..]);
      EscapedHead(s[0], PercentEncoded(s[1..]));
      assert s == [s[0]] + s[1..];
    }
  }

  /** Text comes back from encoding exactly when it has no percent sign; otherwise nothing does. */
  lemma EncodingRoundTrip(s: Bytes)
    requires ValidUtf8(s)
    ensures DecodedOnce(PercentEncoded(s)) == if PERCENT in s then None else Some(s)
  {
    EncodingUnescapes(s);
  }

  lemma {:induction false} PlainUnescapes(s: Bytes)
    requires PERCENT !in s
    ensures Unescaped(s) == Some(s)
    decreases |s|
  {
    if s != [] {
      PlainUnescapes(s[1..]);
      assert s == [s[0]] + s[1..];
    }
  }

  /** What decoding once gives, decoding again leaves alone. */
  lemma DecodedIsFixed(s: Bytes)
    requires DecodedOnce(s).Some?
    ensures DecodedOnce(DecodedOnce(s).value) == DecodedOnce(s)
  {
    PlainUnescapes(DecodedOnce(s).value);
  }

  // ---- the loop ----------------------------------------------------------

  method DecodeOnce(s: Bytes) returns (result: Option<Bytes>)
    ensures result == DecodedOnce(s)
  {
    var decoded: Bytes := [];
    var index := 0;
    assert s[0..] == s;
    if Unescaped(s).Some? { assert [] + Unescaped(s).value == Unescaped(s).value; }
    while index < |s|
      invariant 0 <= index <= |s|
      invariant Unescaped(s) == match Unescaped(s[index..]) case None => None case Some(rest) => Some(decoded + rest)
    {
      var rest := s[index..];
      if s[index] == PERCENT {
        if index + 2 >= |s| { return None; }
        var high, low := HexDigit(s[index + 1]), HexDigit(s[index + 2]);
        if high.None? || low.None? { return None; }
        assert rest[3..] == s[index + 3..];
        Accumulates(decoded, EscapeValue(rest).value, Unescaped(s[index + 3..]));
        decoded := decoded + [EscapeByte(high.value, low.value)];
        index := index + 3;
      } else {
        assert rest[1..] == s[index + 1..];
        Accumulates(decoded, s[index], Unescaped(s[index + 1..]));
        decoded := decoded + [s[index]];
        index := index + 1;
      }
    }
    assert s[index..] == [];
    assert decoded + [] == decoded;
    if ValidUtf8(decoded) && PERCENT !in decoded { return Some(decoded); }
    result := None;
  }

  lemma Accumulates(decoded: Bytes, b: byte, tail: Option<Bytes>)
    ensures tail.Some? ==> decoded + ([b] + tail.value) == decoded + [b] + tail.value
  {
  }

  // ---- judging encoded text ----------------------------------------------

  /** The bytes one character each: credential terms are ASCII, so no multi-byte character can matter. */
  function AsCharacters(s: Bytes): string {
    seq(|s|, i requires 0 <= i < |s| => s[i] as char)
  }

  predicate NamesCredentials(s: Bytes) {
    NamesCredentialMaterial(AsCharacters(s))
  }

  /** Encoded text is judged by what it decodes to, and taken to name credentials when it does not decode. */
  predicate EncodedNamesCredentials(s: Bytes) {
    match DecodedOnce(s)
    case None => true
    case Some(decoded) => NamesCredentials(decoded)
  }

  /**
    No spelling hides a credential: however bytes are spelled, escapes or not,
    they are suspect exactly when they name one, are not text, or keep a percent
    sign.
  */
  lemma SpellingHidesNothing(s: Bytes, d: Bytes)
    requires Spells(s, d)
    ensures EncodedNamesCredentials(s) <==> NamesCredentials(d) || !ValidUtf8(d) || PERCENT in d
  {
    hide NamesCredentials;
    UnescapedSpells(s, d);
  }

  /** The encoding of text is judged as the text, unless it has a percent sign. */
  lemma EncodingJudgedAlike(s: Bytes)
    requires ValidUtf8(s)
    ensures EncodedNamesCredentials(PercentEncoded(s)) <==> NamesCredentials(s) || PERCENT in s
  {
    hide NamesCredentials;
    EncodingRoundTrip(s);
  }
}
