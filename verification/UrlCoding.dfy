/** Form encoding of text: percent-encoded UTF-8 with `+` for space (section 2.1 of RFC 3986, section 3 of
    RFC 3629), and the decoder that path options go through. */
module UrlCoding {
  import opened Prelude

  type Byte = x: int | 0 <= x < 256

  // ---------------------------------------------------------------- UTF-8

  function CharBytes(c: char): (b: seq<Byte>)
    ensures 1 <= |b| <= 4
  {
    var n := c as int;
    if n < 0x80 then [n]
    else if n < 0x800 then [0xC0 + n / 64, 0x80 + n % 64]
    else if n < 0x10000 then [0xE0 + n / 4096, 0x80 + n / 64 % 64, 0x80 + n % 64]
    else [0xF0 + n / 262144, 0x80 + n / 4096 % 64, 0x80 + n / 64 % 64, 0x80 + n % 64]
  }

  function Utf8(s: string): seq<Byte> {
    if s == "" then [] else Utf8(s[..|s| - 1]) + CharBytes(s[|s| - 1])
  }

  predicate IsTail(b: Byte) { 0x80 <= b < 0xC0 }

  /** The payload of a leading or continuing byte whose marker bits are `mark`. */
  function Bits(b: Byte, mark: int): int { (b as int) - mark }

  const REPLACEMENT := '\U{FFFD}'

  function ToChar(n: int): char {
    if 0 <= n < 0xD800 || 0xE000 <= n < 0x11_0000 then n as char else REPLACEMENT
  }

  /** The first character of a byte sequence and the number of bytes it takes; a malformed byte is replaced. */
  function FirstChar(b: seq<Byte>): (r: (char, nat))
    requires b != []
    ensures 1 <= r.1 <= |b|
  {
    if b[0] < 0x80 then (ToChar(b[0]), 1)
    else if 0xC0 <= b[0] < 0xE0 && |b| >= 2 && IsTail(b[1]) then
      (ToChar(Bits(b[0], 0xC0) * 64 + Bits(b[1], 0x80)), 2)
    else if 0xE0 <= b[0] < 0xF0 && |b| >= 3 && IsTail(b[1]) && IsTail(b[2]) then
      (ToChar(Bits(b[0], 0xE0) * 4096 + Bits(b[1], 0x80) * 64 + Bits(b[2], 0x80)), 3)
    else if 0xF0 <= b[0] && |b| >= 4 && IsTail(b[1]) && IsTail(b[2]) && IsTail(b[3]) then
      (ToChar(Bits(b[0], 0xF0) * 262144 + Bits(b[1], 0x80) * 4096 + Bits(b[2], 0x80) * 64 + Bits(b[3], 0x80)), 4)
    else (REPLACEMENT, 1)
  }

  function Utf8Decode(b: seq<Byte>): string {
    if b == [] then ""
    else
      var (c, n) := FirstChar(b);
      [c] + Utf8Decode(b[n..])
  }

  /** A number below 2^21 in base 64. */
  lemma Base64Digits(n: int)
    requires 0 <= n
    ensures n / 4096 == n / 64 / 64 && n / 262144 == n / 64 / 64 / 64
    ensures n == n / 64 * 64 + n % 64
    ensures n == n / 4096 * 4096 + n / 64 % 64 * 64 + n % 64
    ensures n == n / 262144 * 262144 + n / 4096 % 64 * 4096 + n / 64 % 64 * 64 + n % 64
  {}

  lemma FirstCharOfEncoding(c: char, rest: seq<Byte>)
    ensures FirstChar(CharBytes(c) + rest) == (c, |CharBytes(c)|)
  {
    var b := CharBytes(c) + rest;
    assert forall i | 0 <= i < |CharBytes(c)| :: b[i] == CharBytes(c)[i];
    Base64Digits(c as int);
  }

  lemma {:induction false} Utf8DecodeAppends(s: string, rest: seq<Byte>)
    ensures Utf8Decode(Utf8(s) + rest) == s + Utf8Decode(rest)
  {
    if s == "" {
      assert Utf8(s) + rest == rest && s + Utf8Decode(rest) == Utf8Decode(rest);
    } else {
      var front, c := s[..|s| - 1], s[|s| - 1];
      var more := CharBytes(c) + rest;
      assert Utf8(s) + rest == Utf8(front) + more;
      Utf8DecodeAppends(front, more);
      FirstCharOfEncoding(c, rest);
      assert more[|CharBytes(c)|..] == rest;
      assert s == front + [c];
    }
  }

  /** Decoding undoes encoding, for all text. */
  lemma Utf8RoundTrip(s: string)
    ensures Utf8Decode(Utf8(s)) == s
  {
    Utf8DecodeAppends(s, []);
    assert Utf8(s) + [] == Utf8(s);
  }

  // ---------------------------------------------------------------- percent-encoding

  predicate IsPlain(c: char) {
    '0' <= c <= '9' || 'a' <= c <= 'z' || 'A' <= c <= 'Z' || c in {'.', '-', '*', '_'}
  }

  function HexDigit(n: int): char
    requires 0 <= n < 16
  {
    if n < 10 then (n + 48) as char else (n + 55) as char
  }

  function HexValue(c: char): int {
    if '0' <= c <= '9' then c as int - 48
    else if 'a' <= c <= 'f' then c as int - 87
    else if 'A' <= c <= 'F' then c as int - 55
    else -1
  }

  function Escape(b: Byte): string { ['%', HexDigit(b / 16), HexDigit(b % 16)] }

  function EscapeAll(b: seq<Byte>): string {
    if b == [] then "" else Escape(b[0]) + EscapeAll(b[1..])
  }

  function EncodeChar(c: char): (s: string)
    ensures s != ""
  {
    if IsPlain(c) then [c] else if c == ' ' then "+" else EscapeAll(CharBytes(c))
  }

  function Encode(s: string): string {
    if s == "" then "" else EncodeChar(s[0]) + Encode(s[1..])
  }

  /** Two characters read as a hexadecimal number.  The library parser also takes a sign in front of one digit,
      and the decoder refuses only negative results. */
  function HexByte(hi: char, lo: char): Option<Byte> {
    if HexValue(lo) < 0 then None
    else if HexValue(hi) >= 0 then Some(16 * HexValue(hi) + HexValue(lo))
    else if hi == '+' || (hi == '-' && lo == '0') then Some(HexValue(lo))
    else None
  }

  /** Decoding; `pending` holds the bytes of the current run of escapes.  None stands for the exception on a
      malformed or incomplete escape. */
  function DecodeFrom(s: string, pending: seq<Byte>): Option<string> {
    if s == "" then Some(Utf8Decode(pending))
    else if s[0] == '%' then
      if |s| < 3 then None
      else
        match HexByte(s[1], s[2])
        case None => None
        case Some(b) => DecodeFrom(s[3..], pending + [b])
    else
      match DecodeFrom(s[1..], [])
      case None => None
      case Some(rest) => Some(Utf8Decode(pending) + [if s[0] == '+' then ' ' else s[0]] + rest)
  }

  function Decode(s: string): Option<string> { DecodeFrom(s, []) }

  lemma HexRoundTrip(b: Byte)
    ensures HexByte(HexDigit(b / 16), HexDigit(b % 16)) == Some(b)
  {}

  lemma {:induction false} DecodeEscapes(b: seq<Byte>, rest: string, pending: seq<Byte>)
    ensures DecodeFrom(EscapeAll(b) + rest, pending) == DecodeFrom(rest, pending + b)
  {
    if b == [] {
      assert EscapeAll(b) + rest == rest && pending + b == pending;
    } else {
      var s := EscapeAll(b) + rest;
      HexRoundTrip(b[0]);
      assert s == Escape(b[0]) + (EscapeAll(b[1..]) + rest);
      assert s[3..] == EscapeAll(b[1..]) + rest;
      DecodeEscapes(b[1..], rest, pending + [b[0]]);
      assert pending + [b[0]] + b[1..] == pending + b;
    }
  }

  lemma {:induction false} DecodeAppends(t: string, u: string)
    ensures DecodeFrom(Encode(t), Utf8(u)) == Some(u + t)
    decreases |t|
  {
    if t == "" {
      Utf8RoundTrip(u);
      assert u + t == u;
    } else {
      var c, more := t[0], t[1..];
      assert u + [c] + more == u + t;
      if IsPlain(c) || c == ' ' {
        assert Encode(t)[1..] == Encode(more);
        DecodeAppends(more, "");
        assert "" + more == more;
        Utf8RoundTrip(u);
      } else {
        DecodeEscapes(CharBytes(c), Encode(more), Utf8(u));
        assert (u + [c])[..|u|] == u;
        assert Utf8(u + [c]) == Utf8(u) + CharBytes(c);
        DecodeAppends(more, u + [c]);
      }
    }
  }

  /** Decoding undoes encoding, for all text. */
  lemma DecodeUndoesEncode(s: string)
    ensures Decode(Encode(s)) == Some(s)
  {
    DecodeAppends(s, "");
    assert "" + s == s;
  }

  /** Encoded text holds no separators. */
  lemma {:induction false} EscapesAreSafe(b: seq<Byte>)
    ensures '/' !in EscapeAll(b) && '=' !in EscapeAll(b)
  {
    if b != [] { EscapesAreSafe(b[1..]); }
  }

  lemma {:induction false} EncodingIsSafe(s: string)
    ensures '/' !in Encode(s) && '=' !in Encode(s)
    ensures s != "" ==> Encode(s) != ""
  {
    if s != "" {
      EncodingIsSafe(s[1..]);
      EscapesAreSafe(CharBytes(s[0]));
    }
  }

  // ---------------------------------------------------------------- what the decoder makes of other text

  predicate IsHex(c: char) { '0' <= c <= '9' || 'a' <= c <= 'f' || 'A' <= c <= 'F' }

  /** Two characters that the decoder accepts behind a percent sign. */
  predicate IsEscape(hi: char, lo: char) { IsHex(lo) && (IsHex(hi) || hi == '+' || (hi == '-' && lo == '0')) }

  /** A percent sign that two such characters do not follow. */
  predicate BadEscape(s: string, i: nat) {
    i < |s| && s[i] == '%' && (i + 2 >= |s| || !IsEscape(s[i + 1], s[i + 2]))
  }

  ghost predicate HasBadEscape(s: string) { exists i: nat :: BadEscape(s, i) }

  lemma BadEscapeLater(s: string, n: nat)
    requires n <= |s| && (n == 1 || n == 3) && !BadEscape(s, 0) && (n == 3 <==> s[0] == '%')
    ensures HasBadEscape(s) <==> HasBadEscape(s[n..])
  {
    if i: nat :| BadEscape(s, i) {
      assert i >= n;
      assert BadEscape(s[n..], i - n);
    }
    if i: nat :| BadEscape(s[n..], i) { assert BadEscape(s, i + n); }
  }

  lemma {:induction false} DecodeFails(s: string, pending: seq<Byte>)
    ensures DecodeFrom(s, pending).None? <==> HasBadEscape(s)
    decreases |s|
  {
    if s != "" {
      if BadEscape(s, 0) {
      } else if s[0] == '%' {
        BadEscapeLater(s, 3);
        DecodeFails(s[3..], pending + [HexByte(s[1], s[2]).value]);
      } else {
        BadEscapeLater(s, 1);
        DecodeFails(s[1..], []);
      }
    }
  }

  /** Decoding fails if and only if some percent sign is not followed by two characters that read as a byte. */
  lemma MalformedEscapes(s: string)
    ensures Decode(s).None? <==> HasBadEscape(s)
  {
    DecodeFails(s, []);
  }

  /** Text without percent signs keeps its characters, but for plus signs, which turn into spaces. */
  lemma {:induction false} NothingEscaped(s: string)
    requires '%' !in s
    ensures Decode(s).Some? && |Decode(s).value| == |s|
    ensures forall i | 0 <= i < |s| :: Decode(s).value[i] == if s[i] == '+' then ' ' else s[i]
  {
    if s != "" { NothingEscaped(s[1..]); }
  }

  /** Escaped bytes that are no UTF-8 come out as the replacement character: one that continues nothing, and one
      that nothing continues. */
  lemma MalformedBytes(b: Byte, c: char)
    requires b >= 0x80 && IsPlain(c) && (IsTail(b) || b >= 0xC0)
    ensures Decode(Escape(b) + [c]) == Some(['\U{FFFD}', c])
  {
    var s := Escape(b) + [c];
    HexRoundTrip(b);
    assert s[3..] == [c] && [c][1..] == "";
    assert Utf8Decode([b]) == ['\U{FFFD}'];
    assert DecodeFrom("", []) == Some("");
    assert DecodeFrom([c], [b]) == Some(['\U{FFFD}'] + [c] + "");
    assert ['\U{FFFD}'] + [c] + "" == ['\U{FFFD}', c];
    assert [] + [b] == [b];
  }
}
