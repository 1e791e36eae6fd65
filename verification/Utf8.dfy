/** UTF-8 (section 3 of RFC 3629), with which both the wire codec and the vault file store text. */
module Utf8 {
  import opened Collections

  type byte = x: int | 0 <= x < 256

  function EncodeChar(c: char): seq<byte> {
    var v := c as int;
    if v < 0x80 then [v]
    else if v < 0x800 then [0xC0 + v / 64, 0x80 + v % 64]
    else if v < 0x1_0000 then [0xE0 + v / 4096, 0x80 + v / 64 % 64, 0x80 + v % 64]
    else [0xF0 + v / 262144, 0x80 + v / 4096 % 64, 0x80 + v / 64 % 64, 0x80 + v % 64]
  }

  function Encode(s: string): seq<byte> {
    if s == "" then [] else EncodeChar(s[0]) + Encode(s[1..])
  }

  function Join(a: nat, b: nat, c: nat, d: nat): nat {
    a * 262144 + b * 4096 + c * 64 + d
  }

  predicate Continues(b: byte) {
    0x80 <= b < 0xC0
  }

  /** The first character and the bytes after it; overlong forms and surrogates are refused. */
  function DecodeChar(b: seq<byte>): (r: Option<(char, seq<byte>)>)
    ensures r.Some? ==> |r.value.1| < |b|
  {
    if b == [] then None
    else if b[0] < 0x80 then Some((b[0] as char, b[1..]))
    else if 0xC0 <= b[0] < 0xE0 && |b| >= 2 && Continues(b[1]) then
      var v := Join(0, 0, b[0] - 0xC0, b[1] - 0x80);
      if v >= 0x80 then Some((v as char, b[2..])) else None
    else if 0xE0 <= b[0] < 0xF0 && |b| >= 3 && Continues(b[1]) && Continues(b[2]) then
      var v := Join(0, b[0] - 0xE0, b[1] - 0x80, b[2] - 0x80);
      if v >= 0x800 && !(0xD800 <= v < 0xE000) then Some((v as char, b[3..])) else None
    else if 0xF0 <= b[0] < 0xF8 && |b| >= 4 && Continues(b[1]) && Continues(b[2]) && Continues(b[3]) then
      var v := Join(b[0] - 0xF0, b[1] - 0x80, b[2] - 0x80, b[3] - 0x80);
      if 0x1_0000 <= v < 0x11_0000 then Some((v as char, b[4..])) else None
    else None
  }

  function Decode(b: seq<byte>): Option<string>
    decreases |b|
  {
    if b == [] then Some("")
    else
      var (c, rest) :- DecodeChar(b);
      var s :- Decode(rest);
      Some([c] + s)
  }

  /** The base-64 digits of a scalar value. */
  lemma {:induction false} Digits(v: nat)
    ensures v == v / 64 * 64 + v % 64
    ensures v / 64 == v / 4096 * 64 + v / 64 % 64
    ensures v / 4096 == v / 262144 * 64 + v / 4096 % 64
  {
  }

  /** A value is determined by its base-64 digits. */
  lemma {:induction false} FromDigits(v: nat, a: nat, b: nat, c: nat, d: nat)
    requires v == Join(a, b, c, d) && b < 64 && c < 64 && d < 64
    ensures v / 262144 == a && v / 4096 % 64 == b && v / 64 % 64 == c && v % 64 == d
    ensures a == 0 ==> v / 4096 == b
    ensures a == b == 0 ==> v / 64 == c
  {
    LastDigit(v, a * 4096 + b * 64 + c, d);
    LastDigit(a * 4096 + b * 64 + c, a * 64 + b, c);
    LastDigit(a * 64 + b, a, b);
  }

  lemma {:induction false} LastDigit(v: nat, q: nat, d: nat)
    requires v == q * 64 + d && d < 64
    ensures v / 64 == q && v % 64 == d
  {
  }

  lemma {:induction false} CharRoundTrip(c: char, rest: seq<byte>)
    ensures DecodeChar(EncodeChar(c) + rest) == Some((c, rest))
  {
    var v := c as int;
    Digits(v);
    if v < 0x80 {
      Front([v], rest);
    } else if v < 0x800 {
    } else if v < 0x1_0000 {
    } else {
      FourBytes(c, rest);
    }
  }

  lemma {:induction false} Front(e: seq<byte>, rest: seq<byte>)
    ensures (e + rest)[|e|..] == rest && forall i :: 0 <= i < |e| ==> (e + rest)[i] == e[i]
  {
  }

  lemma {:induction false} FourBytes(c: char, rest: seq<byte>)
    requires 0x1_0000 <= c as int
    ensures DecodeChar(EncodeChar(c) + rest) == Some((c, rest))
  {
    Digits(c as int);
    Front(EncodeChar(c), rest);
  }

  lemma {:induction false} CharCanonical(b: seq<byte>)
    ensures DecodeChar(b).Some? ==> b == EncodeChar(DecodeChar(b).value.0) + DecodeChar(b).value.1
  {
    if DecodeChar(b).Some? {
      var (c, rest) := DecodeChar(b).value;
      if b[0] < 0x80 {
        assert b == [b[0]] + rest;
      } else if b[0] < 0xE0 {
        FromDigits(c as int, 0, 0, b[0] - 0xC0, b[1] - 0x80);
        assert b == [b[0], b[1]] + rest;
      } else if b[0] < 0xF0 {
        FromDigits(c as int, 0, b[0] - 0xE0, b[1] - 0x80, b[2] - 0x80);
        assert b == [b[0], b[1], b[2]] + rest;
      } else {
        FromDigits(c as int, b[0] - 0xF0, b[1] - 0x80, b[2] - 0x80, b[3] - 0x80);
        assert b == [b[0], b[1], b[2], b[3]] + rest;
      }
    }
  }

  /** Decoding undoes encoding. */
  lemma {:induction false} RoundTrip(s: string)
    ensures Decode(Encode(s)) == Some(s)
  {
    if s != "" {
      CharRoundTrip(s[0], Encode(s[1..]));
      RoundTrip(s[1..]);
      assert Encode(s) != [] && s == [s[0]] + s[1..];
    }
  }

  /** Only the encoding of a string decodes to it. */
  lemma {:induction false} Canonical(b: seq<byte>)
    ensures Decode(b).Some? ==> Encode(Decode(b).value) == b
    decreases |b|
  {
    if b != [] && DecodeChar(b).Some? {
      CharCanonical(b);
      Canonical(DecodeChar(b).value.1);
    }
  }
}
