/**
 * The `BASE64_STANDARD` engine of the `base64` crate: the alphabet of Table 1 in section 4
 * of RFC 4648, `=` padding on encode, and on decode canonical padding and zero trailing
 * bits are both required. Under those two decoding rules the strings that decode are
 * exactly the strings that `Encode` produces (`DecodeSucceedsIff` below).
 *
 * Both directions go through 6-bit values: octets <-> sextets is arithmetic on groups of
 * three octets, sextets <-> symbols is the alphabet, one character at a time.
 */
module Base64 {
  import opened Wrappers
  import opened Primitives

  /** A 6-bit group, the value one symbol of the alphabet stands for. */
  type sextet = v: int | 0 <= v < 64

  const Pad: char := '='

  // ---------------------------------------------------------------- the alphabet

  /** The symbol for a 6-bit value: `A`-`Z`, `a`-`z`, `0`-`9`, `+`, `/`. */
  function Symbol(v: sextet): (c: char)
    ensures c != Pad
  {
    if v < 26 then ('A' as int + v) as char
    else if v < 52 then ('a' as int + (v - 26)) as char
    else if v < 62 then ('0' as int + (v - 52)) as char
    else if v == 62 then '+'
    else '/'
  }

  /** The value of a symbol of the alphabet, or `None` for any other character (`=` included). */
  function Value(c: char): (r: Option<sextet>)
    ensures r.Some? ==> Symbol(r.value) == c
  {
    if 'A' <= c <= 'Z' then Some(c as int - 'A' as int)
    else if 'a' <= c <= 'z' then Some(c as int - 'a' as int + 26)
    else if '0' <= c <= '9' then Some(c as int - '0' as int + 52)
    else if c == '+' then Some(62)
    else if c == '/' then Some(63)
    else None
  }

  lemma ValueOfSymbol(v: sextet)
    ensures Value(Symbol(v)) == Some(v)
  {
  }

  predicate IsSymbol(c: char) {
    Value(c).Some?
  }

  function Symbols(vs: seq<sextet>): (s: string)
    ensures |s| == |vs|
    ensures forall i :: 0 <= i < |vs| ==> s[i] == Symbol(vs[i])
  {
    seq(|vs|, i requires 0 <= i < |vs| => Symbol(vs[i]))
  }

  function Pads(n: nat): (s: string)
    ensures |s| == n
    ensures forall i :: 0 <= i < n ==> s[i] == Pad
  {
    seq(n, _ => Pad)
  }

  // ---------------------------------------------------------------- octets and sextets

  function Octet0(v0: sextet, v1: sextet): byte { v0 * 4 + v1 / 16 }
  function Octet1(v1: sextet, v2: sextet): byte { v1 % 16 * 16 + v2 / 4 }
  function Octet2(v2: sextet, v3: sextet): byte { v2 % 4 * 64 + v3 }

  /** Four 6-bit groups per three octets; two or three for a final one or two octets. */
  function SextetCount(n: nat): nat
    decreases n
  {
    if n == 0 then 0 else if n == 1 then 2 else if n == 2 then 3 else 4 + SextetCount(n - 3)
  }

  /**
   * The 6-bit groups of some octets, most significant bits first: four per three octets,
   * and for a final one or two octets two or three groups, padded with zero bits.
   */
  function Sextets(b: seq<byte>): (vs: seq<sextet>)
    ensures |vs| == SextetCount(|b|)
    decreases |b|
  {
    if |b| == 0 then []
    else if |b| == 1 then [b[0] / 4, b[0] % 4 * 16]
    else if |b| == 2 then [b[0] / 4, b[0] % 4 * 16 + b[1] / 16, b[1] % 16 * 4]
    else [b[0] / 4, b[0] % 4 * 16 + b[1] / 16, b[1] % 16 * 4 + b[2] / 64, b[2] % 64] + Sextets(b[3..])
  }

  /**
   * The octets 6-bit groups stand for, or `None` when a final partial group has bits set
   * that no octet fills (or a lone group is left over, which `Decode` never passes).
   */
  function Octets(vs: seq<sextet>): (r: Option<seq<byte>>)
    ensures r.Some? ==> |r.value| == |vs| * 3 / 4
    decreases |vs|
  {
    if |vs| == 0 then Some([])
    else if |vs| == 1 then None
    else if |vs| == 2 then
      if vs[1] % 16 == 0 then Some([Octet0(vs[0], vs[1])]) else None
    else if |vs| == 3 then
      if vs[2] % 4 == 0 then Some([Octet0(vs[0], vs[1]), Octet1(vs[1], vs[2])]) else None
    else
      match Octets(vs[4..])
      case None => None
      case Some(rest) => Some([Octet0(vs[0], vs[1]), Octet1(vs[1], vs[2]), Octet2(vs[2], vs[3])] + rest)
  }

  lemma TripleSextets(b0: byte, b1: byte, b2: byte)
    ensures var v1, v2 := b0 % 4 * 16 + b1 / 16, b1 % 16 * 4 + b2 / 64;
            Octet0(b0 / 4, v1) == b0 && Octet1(v1, v2) == b1 && Octet2(v2, b2 % 64) == b2
  {
    var v1, v2 := b0 % 4 * 16 + b1 / 16, b1 % 16 * 4 + b2 / 64;
    assert v1 / 16 == b0 % 4 && v1 % 16 == b1 / 16;
    assert v2 / 4 == b1 % 16 && v2 % 4 == b2 / 64;
  }

  lemma {:induction false} OctetsOfSextets(b: seq<byte>)
    ensures Octets(Sextets(b)) == Some(b)
    decreases |b|
  {
    var vs := Sextets(b);
    if |b| == 1 {
      assert [Octet0(vs[0], vs[1])] == b;
    } else if |b| == 2 {
      TripleSextets(b[0], b[1], 0);
      assert [Octet0(vs[0], vs[1]), Octet1(vs[1], vs[2])] == b;
    } else if |b| >= 3 {
      TripleSextets(b[0], b[1], b[2]);
      OctetsOfSextets(b[3..]);
      assert vs[4..] == Sextets(b[3..]);
      assert b == [b[0], b[1], b[2]] + b[3..];
    }
  }

  lemma QuadOctets(v0: sextet, v1: sextet, v2: sextet, v3: sextet)
    ensures var b0, b1, b2 := Octet0(v0, v1), Octet1(v1, v2), Octet2(v2, v3);
            b0 / 4 == v0 && b0 % 4 * 16 + b1 / 16 == v1 && b1 % 16 * 4 + b2 / 64 == v2 && b2 % 64 == v3
  {
    var b0, b1, b2 := Octet0(v0, v1), Octet1(v1, v2), Octet2(v2, v3);
    assert b0 / 4 == v0 && b0 % 4 == v1 / 16;
    assert b1 / 16 == v1 % 16 && b1 % 16 == v2 / 4;
    assert b2 / 64 == v2 % 4 && b2 % 64 == v3;
  }

  lemma {:induction false} SextetsOfOctets(vs: seq<sextet>)
    requires Octets(vs).Some?
    ensures Sextets(Octets(vs).value) == vs
    decreases |vs|
  {
    var b := Octets(vs).value;
    if |vs| == 2 {
      QuadOctets(vs[0], vs[1], 0, 0);
    } else if |vs| == 3 {
      QuadOctets(vs[0], vs[1], vs[2], 0);
    } else if |vs| >= 4 {
      QuadOctets(vs[0], vs[1], vs[2], vs[3]);
      SextetsOfOctets(vs[4..]);
      assert b[3..] == Octets(vs[4..]).value;
      assert vs == vs[..4] + vs[4..];
    }
  }

  // ---------------------------------------------------------------- encoding

  /** How many `=` close the encoding of `n` octets. */
  function PadLength(n: nat): nat {
    if n % 3 == 0 then 0 else 3 - n % 3
  }

  /**
   * The sextets and the padding of `n` octets fill whole quads, `4 * k` characters with
   * `k` the number of groups of (up to) three octets; padding follows at least two sextets.
   */
  lemma {:induction false} QuadCount(n: nat)
    ensures SextetCount(n) + PadLength(n) == 4 * ((n + 2) / 3)
    ensures PadLength(n) > 0 ==> SextetCount(n) >= 2
    decreases n
  {
    if n >= 3 {
      QuadCount(n - 3);
      assert (n + 2) / 3 == (n - 1) / 3 + 1;
      assert n % 3 == (n - 3) % 3;
    }
  }

  /** Conversely the padding of a token of whole quads is fixed by how many sextets precede it. */
  lemma PadCount(n: nat, len: nat, pads: nat)
    requires len % 4 == 0 && pads <= 2 && len == SextetCount(n) + pads
    ensures pads == PadLength(n)
  {
    QuadCount(n);
    var k, j := len / 4, (n + 2) / 3;
    assert len == 4 * k;
    assert 4 * k - pads + PadLength(n) == 4 * j;
    assert PadLength(n) <= 2;
  }

  /** `BASE64_STANDARD.encode`: whole quads of symbols, the last one padded with `=`. */
  function Encode(b: seq<byte>): (s: string)
    ensures |s| % 4 == 0
  {
    QuadCount(|b|);
    Symbols(Sextets(b)) + Pads(PadLength(|b|))
  }

  /** Every character of an encoding is a symbol of the alphabet, or `=` in the last two places. */
  lemma EncodeUsesAlphabet(b: seq<byte>)
    ensures forall i :: 0 <= i < |Encode(b)| ==> IsSymbol(Encode(b)[i]) || (Encode(b)[i] == Pad && i >= |Encode(b)| - 2)
  {
    var vs := Sextets(b);
    var s := Encode(b);
    forall i | 0 <= i < |s|
      ensures IsSymbol(s[i]) || (s[i] == Pad && i >= |s| - 2)
    {
      if i < |vs| {
        ValueOfSymbol(vs[i]);
      }
    }
  }

  // ---------------------------------------------------------------- decoding

  /**
   * Why a token does not decode. The variant (and its offset, counted in characters) is
   * this model's own choice for each malformed input; the crate's choice is not modelled.
   */
  datatype DecodeError =
    | InvalidLength
    | InvalidByte(offset: nat, symbol: char)
    | InvalidLastSymbol(offset: nat, symbol: char)

  /** How many `=` end `s`, counting at most two. */
  function TrailingPads(s: string): (n: nat)
    ensures n <= 2 && n <= |s|
  {
    if |s| >= 1 && s[|s| - 1] == Pad then
      if |s| >= 2 && s[|s| - 2] == Pad then 2 else 1
    else 0
  }

  /** The values of symbols; the first character that is not one is `InvalidByte`. */
  function Values(s: string, offset: nat): (r: Result<seq<sextet>, DecodeError>)
    ensures r.Success? ==> |r.value| == |s| && forall i :: 0 <= i < |s| ==> Symbol(r.value[i]) == s[i]
    ensures r.Failure? ==> r.error.InvalidByte?
    decreases |s|
  {
    if |s| == 0 then Success([])
    else
      match Value(s[0])
      case None => Failure(InvalidByte(offset, s[0]))
      case Some(v) =>
        match Values(s[1..], offset + 1)
        case Failure(e) => Failure(e)
        case Success(rest) => Success([v] + rest)
  }

  lemma {:induction false} ValuesOfSymbols(vs: seq<sextet>, offset: nat)
    ensures Values(Symbols(vs), offset) == Success(vs)
    decreases |vs|
  {
    if |vs| > 0 {
      var s := Symbols(vs);
      ValueOfSymbol(vs[0]);
      assert s[1..] == Symbols(vs[1..]);
      ValuesOfSymbols(vs[1..], offset + 1);
      assert vs == [vs[0]] + vs[1..];
    }
  }

  /** `BASE64_STANDARD.decode`: the octets a token stands for, or why it stands for none. */
  function Decode(s: string): (r: Result<seq<byte>, DecodeError>)
    ensures |s| % 4 != 0 ==> r == Failure(InvalidLength)
  {
    if |s| % 4 != 0 then Failure(InvalidLength)
    else
      var body := s[..|s| - TrailingPads(s)];
      var vs :- Values(body, 0);
      match Octets(vs)
      case None => Failure(InvalidLastSymbol(|vs| - 1, body[|vs| - 1]))
      case Some(b) => Success(b)
  }

  // ---------------------------------------------------------------- round trips

  /** The symbols and the padding of an encoding. */
  lemma EncodeParts(b: seq<byte>)
    ensures TrailingPads(Encode(b)) == PadLength(|b|)
    ensures Encode(b)[..|Encode(b)| - PadLength(|b|)] == Symbols(Sextets(b))
  {
    var vs, p := Sextets(b), PadLength(|b|);
    var s := Encode(b);
    QuadCount(|b|);
    if p < 2 && |vs| > 0 {
      assert s[|vs| - 1] == Symbol(vs[|vs| - 1]);
    }
    assert s[..|s| - p] == Symbols(vs);
  }

  /** Round trip: decoding the encoding of any octets gives back exactly those octets. */
  lemma DecodeEncode(b: seq<byte>)
    ensures Decode(Encode(b)) == Success(b)
  {
    EncodeParts(b);
    ValuesOfSymbols(Sextets(b), 0);
    OctetsOfSextets(b);
  }

  /** Canonicity: a token that decodes is the one encoding of its octets; no two tokens decode alike. */
  lemma EncodeDecode(s: string)
    requires Decode(s).Success?
    ensures Encode(Decode(s).value) == s
  {
    var p := TrailingPads(s);
    var body := s[..|s| - p];
    var vs := Values(body, 0).value;
    var b := Decode(s).value;
    assert Octets(vs) == Some(b);
    SextetsOfOctets(vs);
    PadCount(|b|, |s|, p);
    SymbolsOfValues(body, 0);
    EndsInPads(s);
  }

  lemma SymbolsOfValues(s: string, offset: nat)
    requires Values(s, offset).Success?
    ensures Symbols(Values(s, offset).value) == s
  {
  }

  lemma EndsInPads(s: string)
    ensures s == s[..|s| - TrailingPads(s)] + Pads(TrailingPads(s))
  {
    assert s == s[..|s| - TrailingPads(s)] + s[|s| - TrailingPads(s)..];
  }

  /** A token decodes exactly when it is the encoding of some octets. */
  lemma DecodeSucceedsIff(s: string)
    ensures Decode(s).Success? <==> exists b :: Encode(b) == s
  {
    if Decode(s).Success? {
      EncodeDecode(s);
    }
    if exists b :: Encode(b) == s {
      var b :| Encode(b) == s;
      DecodeEncode(b);
    }
  }

  /** A token with a character that is neither a symbol of the alphabet nor `=` never decodes. */
  lemma ForeignCharacterRejected(s: string, i: nat)
    requires i < |s| && !IsSymbol(s[i]) && s[i] != Pad
    ensures Decode(s).Failure?
  {
    if Decode(s).Success? {
      EncodeDecode(s);
      EncodeUsesAlphabet(Decode(s).value);
    }
  }
}
