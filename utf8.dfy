/**
 * UTF-8 as Rust's strings use it: `str::as_bytes` (the encoding of a string's scalar
 * values) and `String::from_utf8_lossy` (decoding, with each maximal ill-formed
 * subsequence replaced by one U+FFFD, as in section 3.9 of the Unicode Standard).
 */
module Utf8 {
  import opened Primitives

  /** U+FFFD REPLACEMENT CHARACTER. */
  const Replacement: char := 0xFFFD as char

  /** The one to four octets of a scalar value (Table 3-6 of the Unicode Standard). */
  function EncodeChar(c: char): (b: seq<byte>)
    ensures 1 <= |b| <= 4
    ensures (|b| == 1) == (c as int < 0x80)
  {
    var n := c as int;
    if n < 0x80 then [n]
    else if n < 0x800 then [0xC0 + n / 64, 0x80 + n % 64]
    else if n < 0x10000 then [0xE0 + n / 4096, 0x80 + n / 64 % 64, 0x80 + n % 64]
    else [0xF0 + n / 0x40000, 0x80 + n / 4096 % 64, 0x80 + n / 64 % 64, 0x80 + n % 64]
  }

  /** `s.as_bytes()`. */
  function Encode(s: string): (b: seq<byte>)
    ensures |s| <= |b| <= 4 * |s|
  {
    if |s| == 0 then [] else EncodeChar(s[0]) + Encode(s[1..])
  }

  predicate IsContinuation(x: byte) {
    0x80 <= x < 0xC0
  }

  /** The second octets allowed after a lead octet (Table 3-7 of the Unicode Standard). */
  predicate SecondOk(lead: byte, x: byte) {
    if lead == 0xE0 then 0xA0 <= x < 0xC0
    else if lead == 0xED then 0x80 <= x < 0xA0
    else if lead == 0xF0 then 0x90 <= x < 0xC0
    else if lead == 0xF4 then 0x80 <= x < 0x90
    else IsContinuation(x)
  }

  /**
   * The next character of a lossy decoding and how many octets it takes: a well-formed
   * sequence gives its scalar value; otherwise the longest prefix of `b` that could still
   * begin a well-formed sequence (at least one octet) gives U+FFFD.
   */
  function DecodeStep(b: seq<byte>): (r: (nat, char))
    requires |b| > 0
    ensures 1 <= r.0 <= |b|
  {
    var b0: int := b[0];
    if b0 < 0x80 then (1, b0 as char)
    else if 0xC2 <= b0 < 0xE0 then
      if |b| >= 2 && IsContinuation(b[1]) then (2, ((b0 - 0xC0) * 64 + (b[1] as int - 0x80)) as char)
      else (1, Replacement)
    else if 0xE0 <= b0 < 0xF0 then
      if |b| < 2 || !SecondOk(b0, b[1]) then (1, Replacement)
      else if |b| < 3 || !IsContinuation(b[2]) then (2, Replacement)
      else (3, ((b0 - 0xE0) * 4096 + (b[1] as int - 0x80) * 64 + (b[2] as int - 0x80)) as char)
    else if 0xF0 <= b0 < 0xF5 then
      if |b| < 2 || !SecondOk(b0, b[1]) then (1, Replacement)
      else if |b| < 3 || !IsContinuation(b[2]) then (2, Replacement)
      else if |b| < 4 || !IsContinuation(b[3]) then (3, Replacement)
      else (4, ((b0 - 0xF0) * 0x40000 + (b[1] as int - 0x80) * 4096 + (b[2] as int - 0x80) * 64 + (b[3] as int - 0x80)) as char)
    else (1, Replacement)
  }

  /** `String::from_utf8_lossy(b)`: never fails, at most one character per octet. */
  function DecodeLossy(b: seq<byte>): (s: string)
    ensures |s| <= |b|
    decreases |b|
  {
    if |b| == 0 then []
    else
      var (n, c) := DecodeStep(b);
      [c] + DecodeLossy(b[n..])
  }

  lemma TwoOctets(c: char, rest: seq<byte>)
    requires 0x80 <= c as int < 0x800
    ensures DecodeStep(EncodeChar(c) + rest) == (2, c)
  {
    var n := c as int;
    var b := EncodeChar(c) + rest;
    var b0: int, b1: int := b[0], b[1];
    assert b0 == 0xC0 + n / 64 && b1 == 0x80 + n % 64;
    assert 0xC2 <= b0 < 0xE0;
    assert (b0 - 0xC0) * 64 + (b1 - 0x80) == n;
  }

  /** The 6-bit digits of a three-octet scalar value, and the second-octet ranges they fall in. */
  lemma ThreeDigits(n: int)
    requires 0x800 <= n < 0x10000 && !(0xD800 <= n < 0xE000)
    ensures var hi, mid, lo := n / 4096, n / 64 % 64, n % 64;
            hi * 4096 + mid * 64 + lo == n && hi < 16
            && (hi == 0 ==> mid >= 32) && (hi == 0xD ==> mid < 32)
  {
    var hi, mid, lo := n / 4096, n / 64 % 64, n % 64;
    assert n / 64 == hi * 64 + mid;
  }

  lemma ThreeOctets(c: char, rest: seq<byte>)
    requires 0x800 <= c as int < 0x10000
    ensures DecodeStep(EncodeChar(c) + rest) == (3, c)
  {
    var n := c as int;
    ThreeDigits(n);
    var b := EncodeChar(c) + rest;
    var b0: int, b1: int, b2: int := b[0], b[1], b[2];
    assert b0 == 0xE0 + n / 4096 && b1 == 0x80 + n / 64 % 64 && b2 == 0x80 + n % 64;
    assert SecondOk(b[0], b[1]);
    assert (b0 - 0xE0) * 4096 + (b1 - 0x80) * 64 + (b2 - 0x80) == n;
  }

  /** The 6-bit digits of a four-octet scalar value, and the second-octet ranges they fall in. */
  lemma FourDigits(n: int)
    requires 0x10000 <= n < 0x110000
    ensures var top, hi, mid, lo := n / 0x40000, n / 4096 % 64, n / 64 % 64, n % 64;
            top * 0x40000 + hi * 4096 + mid * 64 + lo == n && top <= 4
            && (top == 0 ==> hi >= 16) && (top == 4 ==> hi < 16)
  {
    var top, hi, mid, lo := n / 0x40000, n / 4096 % 64, n / 64 % 64, n % 64;
    assert n / 64 == n / 4096 * 64 + mid;
    assert n / 4096 == top * 64 + hi;
  }

  lemma FourOctets(c: char, rest: seq<byte>)
    requires 0x10000 <= c as int
    ensures DecodeStep(EncodeChar(c) + rest) == (4, c)
  {
    var n := c as int;
    FourDigits(n);
    var b := EncodeChar(c) + rest;
    var b0: int, b1: int, b2: int, b3: int := b[0], b[1], b[2], b[3];
    assert b0 == 0xF0 + n / 0x40000 && b1 == 0x80 + n / 4096 % 64 && b2 == 0x80 + n / 64 % 64 && b3 == 0x80 + n % 64;
    assert SecondOk(b[0], b[1]);
    assert (b0 - 0xF0) * 0x40000 + (b1 - 0x80) * 4096 + (b2 - 0x80) * 64 + (b3 - 0x80) == n;
  }

  /** The octets of one character, followed by anything, decode first to that character. */
  lemma DecodeStepEncodeChar(c: char, rest: seq<byte>)
    ensures DecodeStep(EncodeChar(c) + rest) == (|EncodeChar(c)|, c)
  {
    var n := c as int;
    if n < 0x80 {
    } else if n < 0x800 {
      TwoOctets(c, rest);
    } else if n < 0x10000 {
      ThreeOctets(c, rest);
    } else {
      FourOctets(c, rest);
    }
  }

  /** Round trip: lossy decoding of a string's own octets gives back the string, unchanged. */
  lemma {:induction false} DecodeLossyEncode(s: string)
    ensures DecodeLossy(Encode(s)) == s
  {
    if |s| > 0 {
      var head := EncodeChar(s[0]);
      var b := Encode(s);
      assert b == head + Encode(s[1..]);
      DecodeStepEncodeChar(s[0], Encode(s[1..]));
      assert b[|head|..] == Encode(s[1..]);
      DecodeLossyEncode(s[1..]);
      assert s == [s[0]] + s[1..];
    }
  }

  /** `as_bytes` is one-to-one: different strings never share their octets. */
  lemma EncodeInjective(s: string, t: string)
    requires Encode(s) == Encode(t)
    ensures s == t
  {
    DecodeLossyEncode(s);
    DecodeLossyEncode(t);
  }
}
