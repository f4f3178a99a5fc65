/**
 * Node's Buffer Base64 encoding of a string: the UTF-8 bytes of a string, encoded with the
 * padded Base64 alphabet of section 4 of RFC 4648.
 */
module Base64 {
  import opened Wrappers

  type byte = x: int | 0 <= x < 256

  /** The 64-character alphabet of section 4 of RFC 4648: A-Z, a-z, 0-9, '+', '/'. */
  function Char(v: int): (c: char)
    requires 0 <= v < 64
  {
    if v < 26 then ('A' as int + v) as char
    else if v < 52 then ('a' as int + (v - 26)) as char
    else if v < 62 then ('0' as int + (v - 52)) as char
    else if v == 62 then '+'
    else '/'
  }

  predicate IsAlphabet(c: char) {
    ('A' <= c <= 'Z') || ('a' <= c <= 'z') || ('0' <= c <= '9') || c == '+' || c == '/'
  }

  /** The six-bit value of an alphabet character. */
  function Value(c: char): (v: int)
    requires IsAlphabet(c)
    ensures 0 <= v < 64
  {
    if 'A' <= c <= 'Z' then c as int - 'A' as int
    else if 'a' <= c <= 'z' then c as int - 'a' as int + 26
    else if '0' <= c <= '9' then c as int - '0' as int + 52
    else if c == '+' then 62
    else 63
  }

  lemma ValueChar(v: int)
    requires 0 <= v < 64
    ensures IsAlphabet(Char(v)) && Value(Char(v)) == v
  {
  }

  /** Three bytes become four characters. */
  function Quad(b0: byte, b1: byte, b2: byte): (r: string)
    ensures |r| == 4 && forall i :: 0 <= i < 4 ==> IsAlphabet(r[i])
  {
    ValueChar(b0 / 4);
    ValueChar((b0 % 4) * 16 + b1 / 16);
    ValueChar((b1 % 16) * 4 + b2 / 64);
    ValueChar(b2 % 64);
    [Char(b0 / 4), Char((b0 % 4) * 16 + b1 / 16), Char((b1 % 16) * 4 + b2 / 64), Char(b2 % 64)]
  }

  /** The padded encoding: a trailing group of one or two bytes ends in "==" or "=". */
  function Encode(b: seq<byte>): (r: string)
    ensures |r| % 4 == 0 && (|b| > 0 <==> |r| > 0)
    decreases |b|
  {
    if |b| == 0 then ""
    else if |b| == 1 then
      ValueChar(b[0] / 4); ValueChar((b[0] % 4) * 16);
      [Char(b[0] / 4), Char((b[0] % 4) * 16), '=', '=']
    else if |b| == 2 then
      ValueChar(b[0] / 4); ValueChar((b[0] % 4) * 16 + b[1] / 16); ValueChar((b[1] % 16) * 4);
      [Char(b[0] / 4), Char((b[0] % 4) * 16 + b[1] / 16), Char((b[1] % 16) * 4), '=']
    else Quad(b[0], b[1], b[2]) + Encode(b[3..])
  }

  /** Every three bytes (and a final partial group) take four characters. */
  lemma {:induction false} EncodeLength(b: seq<byte>)
    ensures |Encode(b)| == 4 * ((|b| + 2) / 3)
    decreases |b|
  {
    if |b| >= 3 {
      EncodeLength(b[3..]);
      assert |Encode(b)| == 4 + |Encode(b[3..])|;
      assert (|b| + 2) / 3 == 1 + (|b[3..]| + 2) / 3;
    }
  }

  /** Alphabet characters throughout, padding only in the last two places. */
  predicate Shaped(r: string) {
    && (forall i :: 0 <= i < |r| ==> IsAlphabet(r[i]) || r[i] == '=')
    && (forall i :: 0 <= i < |r| - 2 ==> r[i] != '=')
  }

  /** Every character of an encoding is from the alphabet, except padding in the last two places. */
  lemma {:induction false} EncodeShape(b: seq<byte>)
    ensures Shaped(Encode(b))
    decreases |b|
  {
    if |b| >= 3 {
      EncodeShape(b[3..]);
      var r := Encode(b);
      var q := Quad(b[0], b[1], b[2]);
      var t := Encode(b[3..]);
      assert r == q + t;
      forall i | 0 <= i < |r|
        ensures IsAlphabet(r[i]) || r[i] == '='
        ensures i < |r| - 2 ==> r[i] != '='
      {
        if i < 4 {
          assert r[i] == q[i];
          assert IsAlphabet(q[i]);
        } else {
          assert r[i] == t[i - 4];
        }
      }
    } else if |b| == 1 {
      ValueChar(b[0] / 4); ValueChar((b[0] % 4) * 16);
    } else if |b| == 2 {
      ValueChar(b[0] / 4); ValueChar((b[0] % 4) * 16 + b[1] / 16); ValueChar((b[1] % 16) * 4);
    }
  }

  /** Reads a padded Base64 text back to bytes; `None` for a text that is not one. */
  function Decode(s: string): Option<seq<byte>>
    decreases |s|
  {
    if |s| == 0 then Some([])
    else if |s| < 4 then None
    else if |s| == 4 && IsAlphabet(s[0]) && IsAlphabet(s[1]) && s[2] == '=' && s[3] == '=' then
      var c0, c1 := Value(s[0]), Value(s[1]);
      if c1 % 16 == 0 then Some([c0 * 4 + c1 / 16]) else None
    else if |s| == 4 && IsAlphabet(s[0]) && IsAlphabet(s[1]) && IsAlphabet(s[2]) && s[3] == '=' then
      var c0, c1, c2 := Value(s[0]), Value(s[1]), Value(s[2]);
      if c2 % 4 == 0 then Some([c0 * 4 + c1 / 16, (c1 % 16) * 16 + c2 / 4]) else None
    else if IsAlphabet(s[0]) && IsAlphabet(s[1]) && IsAlphabet(s[2]) && IsAlphabet(s[3]) then
      var c0, c1, c2, c3 := Value(s[0]), Value(s[1]), Value(s[2]), Value(s[3]);
      match Decode(s[4..])
      case None => None
      case Some(rest) => Some([c0 * 4 + c1 / 16, (c1 % 16) * 16 + c2 / 4, (c2 % 4) * 64 + c3] + rest)
    else None
  }

  lemma QuadRoundTrip(b0: byte, b1: byte, b2: byte)
    ensures var q := Quad(b0, b1, b2);
      Value(q[0]) * 4 + Value(q[1]) / 16 == b0
      && (Value(q[1]) % 16) * 16 + Value(q[2]) / 4 == b1
      && (Value(q[2]) % 4) * 64 + Value(q[3]) == b2
  {
    var c0, c1, c2, c3 := b0 / 4, (b0 % 4) * 16 + b1 / 16, (b1 % 16) * 4 + b2 / 64, b2 % 64;
    ValueChar(c0);
    ValueChar(c1);
    ValueChar(c2);
    ValueChar(c3);
    FirstByte(b0, b1);
    SecondByte(b1, c1 % 16, b2);
    ThirdByte(b1, b2);
  }

  /** The first byte is the first six bits and the top two of the second character. */
  lemma FirstByte(b0: byte, b1: byte)
    ensures (b0 / 4) * 4 + ((b0 % 4) * 16 + b1 / 16) / 16 == b0
    ensures ((b0 % 4) * 16 + b1 / 16) % 16 == b1 / 16
  {
  }

  /** The second byte is the low four bits of the second character and the top four of the third. */
  lemma SecondByte(b1: byte, hi: int, b2: byte)
    requires hi == b1 / 16
    ensures hi * 16 + ((b1 % 16) * 4 + b2 / 64) / 4 == b1
  {
  }

  /** The third byte is the low two bits of the third character and the whole fourth. */
  lemma ThirdByte(b1: byte, b2: byte)
    ensures (((b1 % 16) * 4 + b2 / 64) % 4) * 64 + b2 % 64 == b2
  {
  }

  lemma DecodeOneByte(b0: byte)
    ensures Decode(Encode([b0])) == Some([b0])
  {
    var c1 := (b0 % 4) * 16;
    ValueChar(b0 / 4); ValueChar(c1);
    var e := Encode([b0]);
    assert e == [Char(b0 / 4), Char(c1), '=', '='];
    assert Value(e[1]) == c1 && c1 % 16 == 0 && c1 / 16 == b0 % 4;
  }

  lemma DecodeTwoBytes(b0: byte, b1: byte)
    ensures Decode(Encode([b0, b1])) == Some([b0, b1])
  {
    var c1 := (b0 % 4) * 16 + b1 / 16;
    var c2 := (b1 % 16) * 4;
    ValueChar(b0 / 4); ValueChar(c1); ValueChar(c2);
    assert c1 / 16 == b0 % 4 && c1 % 16 == b1 / 16;
    assert c2 / 4 == b1 % 16 && c2 % 4 == 0;
    var e := Encode([b0, b1]);
    assert e == [Char(b0 / 4), Char(c1), Char(c2), '='];
    assert e[2] != '=';
  }

  lemma DecodeQuadPrefix(q: string, t: string, b0: byte, b1: byte, b2: byte, rest: seq<byte>)
    requires q == Quad(b0, b1, b2) && Decode(t) == Some(rest)
    ensures Decode(q + t) == Some([b0, b1, b2] + rest)
  {
    QuadRoundTrip(b0, b1, b2);
    var s := q + t;
    assert s[..4] == q && s[4..] == t;
    assert s[0] == q[0] && s[1] == q[1] && s[2] == q[2] && s[3] == q[3];
    assert IsAlphabet(s[3]) && IsAlphabet(s[2]);
    if |t| == 0 {
      assert |s| == 4 && s[3] != '=' && s[2] != '=';
    }
  }

  /** Decoding an encoding gives the bytes back: the encoding loses nothing. */
  lemma {:induction false} DecodeEncode(b: seq<byte>)
    ensures Decode(Encode(b)) == Some(b)
    decreases |b|
  {
    if 0 < |b| < 3 {
      DecodeEncodeShort(b);
    } else if |b| >= 3 {
      DecodeEncode(b[3..]);
      DecodeEncodeLong(b);
    }
  }

  /** A full group in front of an encoding that decodes back decodes back with it. */
  lemma DecodeEncodeLong(b: seq<byte>)
    requires |b| >= 3 && Decode(Encode(b[3..])) == Some(b[3..])
    ensures Decode(Encode(b)) == Some(b)
  {
    var q, t := Quad(b[0], b[1], b[2]), Encode(b[3..]);
    SplitGroup(b);
    assert Encode(b) == q + t;
    DecodeQuadPrefix(q, t, b[0], b[1], b[2], b[3..]);
  }

  /** Bytes are their first group followed by the rest. */
  lemma SplitGroup(b: seq<byte>)
    requires |b| >= 3
    ensures b == [b[0], b[1], b[2]] + b[3..]
  {
  }

  /** A final group of one or two bytes decodes back from its padded quad. */
  lemma DecodeEncodeShort(b: seq<byte>)
    requires 0 < |b| < 3
    ensures Decode(Encode(b)) == Some(b)
  {
    if |b| == 1 {
      assert b == [b[0]];
      DecodeOneByte(b[0]);
    } else {
      assert b == [b[0], b[1]];
      DecodeTwoBytes(b[0], b[1]);
    }
  }

  // ---------------------------------------------------------------------------------------------
  // UTF-8, as section 3 of RFC 3629 defines it

  /** A Unicode scalar value: a code point that is not a surrogate. */
  predicate IsScalar(v: int) {
    0 <= v < 0xD800 || 0xE000 <= v < 0x110000
  }

  /** How many bytes the shortest UTF-8 form of code point `v` takes. */
  function Width(v: int): nat {
    if v < 0x80 then 1 else if v < 0x800 then 2 else if v < 0x10000 then 3 else 4
  }

  /** How many bytes a sequence with lead byte `lead` has: `0xxxxxxx`, `110xxxxx`, `1110xxxx`, `11110xxx`; 0 when `lead` cannot lead. */
  function LeadLength(lead: byte): nat {
    if lead < 0x80 then 1
    else if 0xC0 <= lead < 0xE0 then 2
    else if 0xE0 <= lead < 0xF0 then 3
    else if 0xF0 <= lead < 0xF8 then 4
    else 0
  }

  /** A continuation byte, `10xxxxxx`. */
  predicate IsContinuation(b: byte) {
    0x80 <= b < 0xC0
  }

  /** The six payload bits of a continuation byte. */
  function Payload(b: byte): int {
    b as int - 0x80
  }

  /** The code point a sequence carries: the lead byte's payload bits, then six bits from each continuation byte. */
  function CodePoint(bs: seq<byte>): int
    requires 1 <= |bs| <= 4
  {
    var lead: int := bs[0];
    if |bs| == 1 then lead
    else if |bs| == 2 then (lead - 0xC0) * 64 + Payload(bs[1])
    else if |bs| == 3 then (lead - 0xE0) * 4096 + Payload(bs[1]) * 64 + Payload(bs[2])
    else (lead - 0xF0) * 262144 + Payload(bs[1]) * 4096 + Payload(bs[2]) * 64 + Payload(bs[3])
  }

  /** One well-formed UTF-8 sequence: a lead byte, as many continuation bytes as it announces, in shortest form, of a scalar value. */
  predicate WellFormedChar(bs: seq<byte>) {
    && 1 <= |bs| <= 4 && LeadLength(bs[0]) == |bs|
    && (forall k :: 1 <= k < |bs| ==> IsContinuation(bs[k]))
    && IsScalar(CodePoint(bs)) && Width(CodePoint(bs)) == |bs|
  }

  /** A UTF-8 decoder that accepts only well-formed input. */
  function Utf8Decode(b: seq<byte>): Option<string>
    decreases |b|
  {
    if |b| == 0 then Some([])
    else
      var n := LeadLength(b[0]);
      if n == 0 || |b| < n || !WellFormedChar(b[..n]) then None
      else
        match Utf8Decode(b[n..])
        case None => None
        case Some(rest) => Some([CodePoint(b[..n]) as char] + rest)
  }

  /** The UTF-8 bytes of one Unicode scalar value. */
  function Utf8Char(c: char): (r: seq<byte>)
    ensures 1 <= |r| <= 4
    ensures c as int < 0x80 ==> r == [c as int]
  {
    var v := c as int;
    if v < 0x80 then [v]
    else if v < 0x800 then [0xC0 + v / 64, 0x80 + v % 64]
    else if v < 0x10000 then [0xE0 + v / 4096, 0x80 + (v / 64) % 64, 0x80 + v % 64]
    else [0xF0 + v / 262144, 0x80 + (v / 4096) % 64, 0x80 + (v / 64) % 64, 0x80 + v % 64]
  }

  /** `Buffer.from(s)`: the UTF-8 encoding of a string. */
  function Utf8(s: string): (r: seq<byte>)
    ensures |s| <= |r| <= 4 * |s|
    ensures (forall i :: 0 <= i < |s| ==> s[i] as int < 0x80) ==>
      |r| == |s| && forall i :: 0 <= i < |s| ==> r[i] == s[i] as int
  {
    if |s| == 0 then [] else Utf8Char(s[0]) + Utf8(s[1..])
  }

  /**
   * A character's bytes are one well-formed sequence that carries its code point: the lead byte
   * announces the length, the rest are continuation bytes, and no shorter form exists.
   */
  lemma Utf8CharWellFormed(c: char)
    ensures WellFormedChar(Utf8Char(c)) && CodePoint(Utf8Char(c)) == c as int
  {
    var v := c as int;
    if v < 0x80 {
    } else if v < 0x800 {
      TwoBytes(v);
    } else if v < 0x10000 {
      ThreeBytes(v);
    } else {
      FourBytes(v);
    }
  }

  /** A code point from 0x80 to 0x7FF: a `110xxxxx` lead byte and one continuation byte. */
  lemma TwoBytes(v: int)
    requires 0x80 <= v < 0x800
    ensures var r: seq<byte> := [0xC0 + v / 64, 0x80 + v % 64];
      WellFormedChar(r) && CodePoint(r) == v
  {
    var q, m := v / 64, v % 64;
    assert v == q * 64 + m && 0 <= m < 64;
    assert 2 <= q < 32;
  }

  /** A scalar value from 0x800 to 0xFFFF: a `1110xxxx` lead byte and two continuation bytes. */
  lemma ThreeBytes(v: int)
    requires 0x800 <= v < 0x10000 && IsScalar(v)
    ensures var r: seq<byte> := [0xE0 + v / 4096, 0x80 + (v / 64) % 64, 0x80 + v % 64];
      WellFormedChar(r) && CodePoint(r) == v
  {
    var q, m := v / 64, v % 64;
    assert v == q * 64 + m && 0 <= m < 64;
    var q2, m2 := q / 64, q % 64;
    assert q == q2 * 64 + m2 && 0 <= m2 < 64;
    assert v / 4096 == q2;
    assert 0 <= q2 < 16;
  }

  /** A code point from 0x10000 to 0x10FFFF: a `11110xxx` lead byte and three continuation bytes. */
  lemma FourBytes(v: int)
    requires 0x10000 <= v < 0x110000
    ensures var r: seq<byte> := [0xF0 + v / 262144, 0x80 + (v / 4096) % 64, 0x80 + (v / 64) % 64, 0x80 + v % 64];
      WellFormedChar(r) && CodePoint(r) == v
  {
    var q, m := v / 64, v % 64;
    assert v == q * 64 + m && 0 <= m < 64;
    var q2, m2 := q / 64, q % 64;
    assert q == q2 * 64 + m2 && 0 <= m2 < 64;
    assert v / 4096 == q2;
    var q3, m3 := q2 / 64, q2 % 64;
    assert q2 == q3 * 64 + m3 && 0 <= m3 < 64;
    assert v / 262144 == q3;
    assert v == q3 * 262144 + m3 * 4096 + m2 * 64 + m;
    assert 0 <= q3 < 5;
  }

  /** Decoding a string's UTF-8 gives the string back, so `Buffer.from` loses no character. */
  lemma {:induction false} Utf8DecodeEncode(s: string)
    ensures Utf8Decode(Utf8(s)) == Some(s)
  {
    if |s| > 0 {
      var head, rest := Utf8Char(s[0]), Utf8(s[1..]);
      Utf8CharWellFormed(s[0]);
      Utf8DecodeEncode(s[1..]);
      var b := head + rest;
      assert b[0] == head[0];
      assert b[..|head|] == head && b[|head|..] == rest;
      assert [s[0]] + s[1..] == s;
    }
  }
}
