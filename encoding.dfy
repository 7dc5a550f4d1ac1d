/**
 * The byte-level codecs the client relies on from Python's standard library:
 * `str.encode("utf-8")` / `bytes.decode()` (UTF-8, RFC 3629),
 * `base64.b64encode` / `base64.b64decode` (the alphabet and padding of
 * section 4 of RFC 4648), and `bytes.hex()` (two lower-case digits per byte).
 */
module Encoding {
  import opened Wrappers

  type byte = b: int | 0 <= b < 256

  // ---------------------------------------------------------------------
  // UTF-8
  // ---------------------------------------------------------------------

  /** The UTF-8 encoding of one Unicode scalar value. */
  function EncodeChar(c: char): (r: seq<byte>)
    ensures 1 <= |r| <= 4
    ensures r[0] < 0x80 || 0xC2 <= r[0] < 0xF5
  {
    var n := c as int;
    if n < 0x80 then [n]
    else if n < 0x800 then [0xC0 + n / 64, 0x80 + n % 64]
    else if n < 0x10000 then [0xE0 + n / 4096, 0x80 + (n / 64) % 64, 0x80 + n % 64]
    else [0xF0 + n / 262144, 0x80 + (n / 4096) % 64, 0x80 + (n / 64) % 64, 0x80 + n % 64]
  }

  /** `s.encode("utf-8")`. */
  function Utf8Encode(s: string): (r: seq<byte>)
    ensures |r| >= |s|
    ensures s == [] <==> r == []
  {
    if s == [] then [] else EncodeChar(s[0]) + Utf8Encode(s[1..])
  }

  predicate IsContinuation(x: byte) {
    0x80 <= x < 0xC0
  }

  /**
   * The first scalar value of a strict UTF-8 byte string and the number of
   * bytes it occupies; None for an invalid lead or continuation byte, an
   * overlong form, a surrogate or a value above U+10FFFF.
   */
  function DecodeFirst(b: seq<byte>): (r: Option<(char, nat)>)
    requires |b| > 0
    ensures r.Some? ==> 1 <= r.value.1 <= |b| && r.value.1 <= 4
  {
    var b0: int := b[0];
    if b0 < 0x80 then
      Some((b0 as char, 1))
    else if 0xC2 <= b0 < 0xE0 && |b| >= 2 && IsContinuation(b[1]) then
      Some((((b0 - 0xC0) * 64 + (b[1] as int - 0x80)) as char, 2))
    else if 0xE0 <= b0 < 0xF0 && |b| >= 3 && IsContinuation(b[1]) && IsContinuation(b[2]) then
      var n := (b0 - 0xE0) * 4096 + (b[1] as int - 0x80) * 64 + (b[2] as int - 0x80);
      if n < 0x800 || 0xD800 <= n < 0xE000 then None else Some((n as char, 3))
    else if 0xF0 <= b0 < 0xF5 && |b| >= 4 && IsContinuation(b[1]) && IsContinuation(b[2]) && IsContinuation(b[3]) then
      var n := (b0 - 0xF0) * 262144 + (b[1] as int - 0x80) * 4096 + (b[2] as int - 0x80) * 64 + (b[3] as int - 0x80);
      if n < 0x10000 || n > 0x10FFFF then None else Some((n as char, 4))
    else
      None
  }

  /** `b.decode()`: strict UTF-8 decoding; None where Python raises UnicodeDecodeError. */
  function Utf8Decode(b: seq<byte>): Option<string>
    decreases |b|
  {
    if b == [] then Some([])
    else match DecodeFirst(b)
      case None => None
      case Some((c, k)) =>
        match Utf8Decode(b[k..])
        case None => None
        case Some(rest) => Some([c] + rest)
  }

  lemma Split2(n: int)
    requires 0x80 <= n < 0x800
    ensures 0xC2 <= 0xC0 + n / 64 < 0xE0 && ((0xC0 + n / 64) - 0xC0) * 64 + n % 64 == n
  {
  }

  lemma Split3(n: int)
    requires 0x800 <= n < 0x10000
    ensures 0xE0 <= 0xE0 + n / 4096 < 0xF0
    ensures (n / 4096) * 4096 + ((n / 64) % 64) * 64 + n % 64 == n
  {
  }

  lemma Split4(n: int)
    requires 0x10000 <= n <= 0x10FFFF
    ensures 0xF0 <= 0xF0 + n / 262144 < 0xF5
    ensures (n / 262144) * 262144 + ((n / 4096) % 64) * 4096 + ((n / 64) % 64) * 64 + n % 64 == n
  {
  }

  /** Decoding reads back exactly the bytes one character was encoded into. */
  lemma DecodeFirstOfEncodeChar(c: char, rest: seq<byte>)
    ensures DecodeFirst(EncodeChar(c) + rest) == Some((c, |EncodeChar(c)|))
  {
    var n := c as int;
    var e := EncodeChar(c);
    var b := e + rest;
    if n < 0x80 {
      assert b[0] == n;
    } else if n < 0x800 {
      assert b[0] == 0xC0 + n / 64 && b[1] == 0x80 + n % 64;
      Split2(n);
    } else if n < 0x10000 {
      assert b[0] == 0xE0 + n / 4096 && b[1] == 0x80 + (n / 64) % 64 && b[2] == 0x80 + n % 64;
      Split3(n);
    } else {
      assert b[0] == 0xF0 + n / 262144 && b[1] == 0x80 + (n / 4096) % 64;
      assert b[2] == 0x80 + (n / 64) % 64 && b[3] == 0x80 + n % 64;
      Split4(n);
    }
  }

  /** Decoding the UTF-8 encoding of a string gives the string back. */
  lemma {:induction false} Utf8RoundTrip(s: string)
    ensures Utf8Decode(Utf8Encode(s)) == Some(s)
  {
    if s != [] {
      var e := EncodeChar(s[0]);
      var b := Utf8Encode(s);
      assert b == e + Utf8Encode(s[1..]);
      DecodeFirstOfEncodeChar(s[0], Utf8Encode(s[1..]));
      assert b[|e|..] == Utf8Encode(s[1..]);
      Utf8RoundTrip(s[1..]);
      assert [s[0]] + s[1..] == s;
    }
  }

  // ---------------------------------------------------------------------
  // Base64, section 4 of RFC 4648
  // ---------------------------------------------------------------------

  /** The character of the base64 alphabet for the 6-bit value i (Table 1 of RFC 4648). */
  function Base64Char(i: nat): (c: char)
    requires i < 64
  {
    if i < 26 then ('A' as int + i) as char
    else if i < 52 then ('a' as int + (i - 26)) as char
    else if i < 62 then ('0' as int + (i - 52)) as char
    else if i == 62 then '+'
    else '/'
  }

  /** The 6-bit value of a base64 alphabet character, None for any other character. */
  function Base64Value(c: char): (r: Option<nat>)
    ensures r.Some? ==> r.value < 64 && Base64Char(r.value) == c
  {
    if 'A' <= c <= 'Z' then Some(c as int - 'A' as int)
    else if 'a' <= c <= 'z' then Some(c as int - 'a' as int + 26)
    else if '0' <= c <= '9' then Some(c as int - '0' as int + 52)
    else if c == '+' then Some(62)
    else if c == '/' then Some(63)
    else None
  }

  lemma Base64ValueOfChar(i: nat)
    requires i < 64
    ensures Base64Value(Base64Char(i)) == Some(i)
  {
  }

  const Pad: char := '='

  /** A character that may appear in encoder output: the alphabet or the pad. */
  predicate IsBase64Symbol(c: char) {
    Base64Value(c).Some? || c == Pad
  }

  /** `base64.b64encode(b).decode("ascii")`. */
  function Base64Encode(b: seq<byte>): (r: string)
    ensures |r| == 4 * ((|b| + 2) / 3)
    decreases |b|
  {
    if |b| == 0 then []
    else if |b| == 1 then
      [Base64Char(b[0] / 4), Base64Char((b[0] % 4) * 16), Pad, Pad]
    else if |b| == 2 then
      [Base64Char(b[0] / 4), Base64Char((b[0] % 4) * 16 + b[1] / 16), Base64Char((b[1] % 16) * 4), Pad]
    else
      [Base64Char(b[0] / 4), Base64Char((b[0] % 4) * 16 + b[1] / 16),
       Base64Char((b[1] % 16) * 4 + b[2] / 64), Base64Char(b[2] % 64)]
      + Base64Encode(b[3..])
  }

  /** The characters Python's non-validating decoder keeps: the alphabet and the pad. */
  function Base64Filter(s: string): (r: string)
    ensures |r| <= |s|
  {
    if s == [] then []
    else if IsBase64Symbol(s[0]) then [s[0]] + Base64Filter(s[1..])
    else Base64Filter(s[1..])
  }

  /** Encoder output is ASCII and uses only the alphabet and the pad. */
  lemma {:induction false} Base64EncodeSymbols(b: seq<byte>)
    ensures forall i :: 0 <= i < |Base64Encode(b)| ==>
      IsBase64Symbol(Base64Encode(b)[i]) && Base64Encode(b)[i] as int < 128
    decreases |b|
  {
    if |b| >= 3 {
      Base64EncodeSymbols(b[3..]);
      var group := EncodeFullGroup(b);
    }
  }

  /** Filtering leaves a string of alphabet and pad characters unchanged. */
  lemma {:induction false} Base64FilterKeeps(s: string)
    requires forall i :: 0 <= i < |s| ==> IsBase64Symbol(s[i])
    ensures Base64Filter(s) == s
  {
    if s != [] {
      Base64FilterKeeps(s[1..]);
    }
  }

  /** One group of four symbols: three bytes, or one or two before padding. */
  function DecodeQuad(a: char, b: char, c: char, d: char): (r: Option<seq<byte>>)
    ensures r.Some? ==> 1 <= |r.value| <= 3 && (|r.value| == 3 <==> d != Pad)
  {
    match (Base64Value(a), Base64Value(b))
    case (Some(ia), Some(ib)) =>
      if c == Pad then
        (if d == Pad then Some([ia * 4 + ib / 16]) else None)
      else
        (match Base64Value(c)
         case None => None
         case Some(ic) =>
           if d == Pad then Some([ia * 4 + ib / 16, (ib % 16) * 16 + ic / 4])
           else
             (match Base64Value(d)
              case None => None
              case Some(id) => Some([ia * 4 + ib / 16, (ib % 16) * 16 + ic / 4, (ic % 4) * 64 + id])))
    case _ => None
  }

  /** Groups of four; a padded group is only allowed last. */
  function DecodeQuads(s: string): Option<seq<byte>>
    decreases |s|
  {
    if |s| == 0 then Some([])
    else if |s| < 4 then None
    else match DecodeQuad(s[0], s[1], s[2], s[3])
      case None => None
      case Some(q) =>
        if |q| < 3 then (if |s| == 4 then Some(q) else None)
        else match DecodeQuads(s[4..])
          case None => None
          case Some(rest) => Some(q + rest)
  }

  /** `base64.b64decode(s)`; None where Python raises binascii.Error. */
  function Base64Decode(s: string): Option<seq<byte>> {
    DecodeQuads(Base64Filter(s))
  }

  lemma DecodeFullGroup(x: byte, y: byte, z: byte)
    ensures DecodeQuad(Base64Char(x / 4), Base64Char((x % 4) * 16 + y / 16),
                       Base64Char((y % 16) * 4 + z / 64), Base64Char(z % 64))
         == Some([x, y, z])
  {
    Base64ValueOfChar(x / 4);
    Base64ValueOfChar((x % 4) * 16 + y / 16);
    Base64ValueOfChar((y % 16) * 4 + z / 64);
    Base64ValueOfChar(z % 64);
    assert ((x % 4) * 16 + y / 16) / 16 == x % 4;
    assert ((x % 4) * 16 + y / 16) % 16 == y / 16;
    assert ((y % 16) * 4 + z / 64) / 4 == y % 16;
    assert ((y % 16) * 4 + z / 64) % 4 == z / 64;
  }

  /** Decoding a base64 encoding gives back the bytes. */
  lemma {:induction false} Base64RoundTrip(b: seq<byte>)
    ensures Base64Decode(Base64Encode(b)) == Some(b)
  {
    Base64EncodeSymbols(b);
    Base64FilterKeeps(Base64Encode(b));
    DecodeQuadsOfEncode(b);
  }

  lemma DecodeOneByteGroup(x: byte)
    ensures DecodeQuad(Base64Char(x / 4), Base64Char((x % 4) * 16), Pad, Pad) == Some([x])
  {
    Base64ValueOfChar(x / 4);
    Base64ValueOfChar((x % 4) * 16);
  }

  lemma DecodeTwoByteGroup(x: byte, y: byte)
    ensures DecodeQuad(Base64Char(x / 4), Base64Char((x % 4) * 16 + y / 16), Base64Char((y % 16) * 4), Pad)
         == Some([x, y])
  {
    Base64ValueOfChar(x / 4);
    Base64ValueOfChar((x % 4) * 16 + y / 16);
    Base64ValueOfChar((y % 16) * 4);
    assert ((x % 4) * 16 + y / 16) / 16 == x % 4;
    assert ((x % 4) * 16 + y / 16) % 16 == y / 16;
    assert ((y % 16) * 4) / 4 == y % 16;
    assert Base64Char((y % 16) * 4) != Pad;
  }

  lemma {:induction false} DecodeQuadsOfEncode(b: seq<byte>)
    ensures DecodeQuads(Base64Encode(b)) == Some(b)
    decreases |b|
  {
    if |b| == 1 {
      DecodeOneByteGroup(b[0]);
      assert b == [b[0]];
    } else if |b| == 2 {
      DecodeTwoByteGroup(b[0], b[1]);
      assert b == [b[0], b[1]];
    } else if |b| >= 3 {
      DecodeQuadsOfEncode(b[3..]);
      DecodeFullGroupThen(b);
    }
  }

  lemma DecodeFullGroupThen(b: seq<byte>)
    requires |b| >= 3
    requires DecodeQuads(Base64Encode(b[3..])) == Some(b[3..])
    ensures DecodeQuads(Base64Encode(b)) == Some(b)
  {
    var group := EncodeFullGroup(b);
    DecodeQuadsStep(group, Base64Encode(b[3..]), b[..3], b[3..]);
    assert b[..3] + b[3..] == b;
  }

  /** The first four symbols of the encoding of three or more bytes decode to the first three bytes. */
  lemma EncodeFullGroup(b: seq<byte>) returns (group: string)
    requires |b| >= 3
    ensures |group| == 4 && Base64Encode(b) == group + Base64Encode(b[3..])
    ensures DecodeQuad(group[0], group[1], group[2], group[3]) == Some(b[..3])
  {
    var x, y, z := b[0], b[1], b[2];
    group := [Base64Char(x / 4), Base64Char((x % 4) * 16 + y / 16),
              Base64Char((y % 16) * 4 + z / 64), Base64Char(z % 64)];
    DecodeFullGroup(x, y, z);
    assert b[..3] == [x, y, z];
  }

  lemma DecodeQuadsStep(group: string, tail: string, q: seq<byte>, rest: seq<byte>)
    requires |group| == 4 && |q| == 3
    requires DecodeQuad(group[0], group[1], group[2], group[3]) == Some(q)
    requires DecodeQuads(tail) == Some(rest)
    ensures DecodeQuads(group + tail) == Some(q + rest)
  {
    var s := group + tail;
    assert s[0] == group[0] && s[1] == group[1] && s[2] == group[2] && s[3] == group[3];
    assert s[4..] == tail;
  }

  // ---------------------------------------------------------------------
  // bytes.hex()
  // ---------------------------------------------------------------------

  function HexDigit(n: nat): (c: char)
    requires n < 16
  {
    if n < 10 then ('0' as int + n) as char else ('a' as int + (n - 10)) as char
  }

  /** `b.hex()`. */
  function Hex(b: seq<byte>): (r: string)
    ensures |r| == 2 * |b|
  {
    if b == [] then [] else [HexDigit(b[0] / 16), HexDigit(b[0] % 16)] + Hex(b[1..])
  }

  lemma HexPairInjective(x: byte, y: byte)
    requires HexDigit(x / 16) == HexDigit(y / 16) && HexDigit(x % 16) == HexDigit(y % 16)
    ensures x == y
  {
    assert x / 16 == y / 16 && x % 16 == y % 16;
  }

  /** Comparing hex strings is comparing bytes. */
  lemma {:induction false} HexEqualIff(a: seq<byte>, b: seq<byte>)
    ensures Hex(a) == Hex(b) <==> a == b
  {
    if a != [] && b != [] && Hex(a) == Hex(b) {
      assert Hex(a)[0] == Hex(b)[0] && Hex(a)[1] == Hex(b)[1];
      HexPairInjective(a[0], b[0]);
      assert Hex(a)[2..] == Hex(a[1..]) && Hex(b)[2..] == Hex(b[1..]);
      HexEqualIff(a[1..], b[1..]);
      assert a == [a[0]] + a[1..] && b == [b[0]] + b[1..];
    }
  }

  /** `Hex(s).startswith(Hex(p))` is a byte-prefix test: hex uses two characters per byte. */
  lemma {:induction false} HexPrefixIff(p: seq<byte>, s: seq<byte>)
    ensures Hex(p) <= Hex(s) <==> p <= s
  {
    if p != [] && s != [] {
      var hp, hs := Hex(p), Hex(s);
      assert hp[2..] == Hex(p[1..]) && hs[2..] == Hex(s[1..]);
      HexPrefixIff(p[1..], s[1..]);
      if hp <= hs {
        assert hp[0] == hs[0] && hp[1] == hs[1];
        HexPairInjective(p[0], s[0]);
        assert hp[2..] <= hs[2..];
        assert p == [p[0]] + p[1..] && s == [s[0]] + s[1..];
      }
      if p <= s {
        assert p[0] == s[0] && p[1..] <= s[1..];
        assert hp == hp[..2] + hp[2..] && hs == hs[..2] + hs[2..];
      }
    }
  }
}
