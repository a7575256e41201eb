/**
 The encoder in front of the hash: UTF-16 code units to UTF-8 bytes. The loop masks, shifts and ors bits; what it
 computes is said with remainders, quotients and sums.
 */
module Utf8 {
  import opened Arithmetic
  import opened Md5Words

  predicate IsUnit(u: nat) {
    u <= 0xffff
  }

  ghost predicate Units(s: seq<nat>) {
    forall i :: 0 <= i < |s| ==> IsUnit(s[i])
  }

  predicate High(u: nat) {
    0xd800 <= u <= 0xdbff
  }

  predicate Low(u: nat) {
    0xdc00 <= u <= 0xdfff
  }

  // ----- the encoder

  function Combine(a: nat, e: nat): nat {
    65536 + a % 1024 * 1024 + e % 1024
  }

  /** The bytes of one code point. */
  function Bytes(a: nat): seq<nat> {
    if a <= 127 then [a]
    else if a <= 2047 then [192 + a / 64 % 32, 128 + a % 64]
    else if a <= 65535 then [224 + a / 4096 % 16, 128 + a / 64 % 64, 128 + a % 64]
    else if a <= 2097151 then [240 + a / 262144 % 8, 128 + a / 4096 % 64, 128 + a / 64 % 64, 128 + a % 64]
    else []
  }

  /** The code points of a string: a pair of surrogates counts as one, a lone one as itself. */
  function CodePoints(s: seq<nat>): seq<nat> {
    if s == [] then []
    else if |s| > 1 && High(s[0]) && Low(s[1]) then [Combine(s[0], s[1])] + CodePoints(s[2..])
    else [s[0]] + CodePoints(s[1..])
  }

  function Join(cs: seq<nat>): seq<nat> {
    if cs == [] then [] else Bytes(cs[0]) + Join(cs[1..])
  }

  function Encode(s: seq<nat>): seq<nat> {
    Join(CodePoints(s))
  }

  predicate PairAt(s: seq<nat>, d: nat) {
    d + 1 < |s| && High(s[d]) && Low(s[d + 1])
  }

  // ----- the same in bits

  /** A field of k bits of the code point, shifted down by j, behind the mark of its byte. */
  lemma Field(mark: nat, a: nat, j: nat, k: nat)
    ensures Or(Shl(mark, k), And(Shr(a, j), Pow2(k) - 1)) == Shl(mark, k) + a / Pow2(j) % Pow2(k)
  {
    ShrIsQuotient(a, j);
    AndMask(Shr(a, j), k);
    OrIsSum(mark, And(Shr(a, j), Pow2(k) - 1), k);
  }

  lemma Marks()
    ensures Shl(6, 5) == 192 && Shl(14, 4) == 224 && Shl(30, 3) == 240 && Shl(2, 6) == 128
    ensures Pow2(0) == 1 && Pow2(3) == 8 && Pow2(4) == 16 && Pow2(5) == 32 && Pow2(6) == 64 && Pow2(10) == 1024
    ensures Pow2(12) == 4096 && Pow2(18) == 262144
  {
    assert Pow2(3) == 8 && Pow2(9) == 512 && Pow2(15) == 32768;
  }

  /** The bit expressions for the bytes of a code point are the terms of Bytes. */
  lemma BitsOfPoint(a: nat)
    ensures Or(192, And(Shr(a, 6), 31)) == 192 + a / 64 % 32
    ensures Or(224, And(Shr(a, 12), 15)) == 224 + a / 4096 % 16
    ensures Or(240, And(Shr(a, 18), 7)) == 240 + a / 262144 % 8
    ensures Or(128, And(Shr(a, 12), 63)) == 128 + a / 4096 % 64
    ensures Or(128, And(Shr(a, 6), 63)) == 128 + a / 64 % 64
    ensures Or(128, And(a, 63)) == 128 + a % 64
  {
    Marks();
    Field(6, a, 6, 5);
    Field(14, a, 12, 4);
    Field(30, a, 18, 3);
    Field(2, a, 12, 6);
    Field(2, a, 6, 6);
    Field(2, a, 0, 6);
  }

  /** The bit expression that joins a pair of surrogates is Combine. */
  lemma BitsOfPair(a: nat, e: nat)
    ensures 65536 + Shl(And(a, 1023), 10) + And(e, 1023) == Combine(a, e)
  {
    Marks();
    AndMask(a, 10);
    AndMask(e, 10);
    ShlIsProduct(And(a, 1023), 10);
  }

  // ----- the loop

  lemma EncodeAhead(s: seq<nat>, d: nat)
    requires d < |s|
    ensures Encode(s[d..]) == if PairAt(s, d) then Bytes(Combine(s[d], s[d + 1])) + Encode(s[d + 2..])
      else Bytes(s[d]) + Encode(s[d + 1..])
  {
    var t := s[d..];
    if PairAt(s, d) {
      assert t[2..] == s[d + 2..];
      assert ([Combine(t[0], t[1])] + CodePoints(t[2..]))[1..] == CodePoints(t[2..]);
    } else {
      assert t[1..] == s[d + 1..];
      assert ([t[0]] + CodePoints(t[1..]))[1..] == CodePoints(t[1..]);
    }
  }

  lemma Associates(a: seq<nat>, b: seq<nat>, c: seq<nat>)
    ensures a + (b + c) == (a + b) + c
  {
  }

  /** The cascade of lengths. */
  method Append(b: seq<nat>, a: nat) returns (r: seq<nat>)
    ensures r == b + Bytes(a)
  {
    BitsOfPoint(a);
    if a <= 127 {
      r := b + [a];
    } else if a <= 2047 {
      r := b + [Or(192, And(Shr(a, 6), 31)), Or(128, And(a, 63))];
    } else if a <= 65535 {
      r := b + [Or(224, And(Shr(a, 12), 15)), Or(128, And(Shr(a, 6), 63)), Or(128, And(a, 63))];
    } else if a <= 2097151 {
      r := b + [Or(240, And(Shr(a, 18), 7)), Or(128, And(Shr(a, 12), 63)), Or(128, And(Shr(a, 6), 63)),
                Or(128, And(a, 63))];
    } else {
      r := b;
    }
  }

  method JoinPair(a: nat, e: nat) returns (r: nat)
    ensures r == Combine(a, e)
  {
    BitsOfPair(a, e);
    r := 65536 + Shl(And(a, 1023), 10) + And(e, 1023);
  }

  /** One turn of the loop: the code point at d and where the next one begins. */
  method NextPoint(c: seq<nat>, d: nat) returns (a: nat, next: nat)
    requires d < |c|
    ensures d < next <= |c| && Encode(c[d..]) == Bytes(a) + Encode(c[next..])
  {
    EncodeAhead(c, d);
    a, next := c[d], d;
    var e := if d + 1 < |c| then c[d + 1] else 0;
    if 55296 <= a <= 56319 && 56320 <= e <= 57343 {
      a := JoinPair(a, e);
      next := next + 1;
    }
    next := next + 1;
  }

  method Str2RstrUtf8(c: seq<nat>) returns (b: seq<nat>)
    ensures b == Encode(c)
  {
    b := [];
    var d := 0;
    assert c[0..] == c;
    while d < |c|
      invariant d <= |c|
      invariant b + Encode(c[d..]) == Encode(c)
    {
      var a;
      a, d := NextPoint(c, d);
      Associates(b, Bytes(a), Encode(c[d..]));
      b := Append(b, a);
    }
  }

  // ----- a decoder

  /** How many bytes the sequence with this first byte has. */
  function Extent(first: nat): nat {
    if first < 0x80 then 1 else if first < 0xe0 then 2 else if first < 0xf0 then 3 else 4
  }

  /** The code point of the sequence that the bytes begin with. */
  function FirstPoint(b: seq<nat>): nat
    requires b != [] && Extent(b[0]) <= |b|
  {
    match Extent(b[0])
    case 1 => b[0]
    case 2 => b[0] % 32 * 64 + b[1] % 64
    case 3 => b[0] % 16 * 4096 + b[1] % 64 * 64 + b[2] % 64
    case _ => b[0] % 8 * 262144 + b[1] % 64 * 4096 + b[2] % 64 * 64 + b[3] % 64
  }

  /** The code units of a code point. */
  function UnitsOf(c: nat): seq<nat> {
    if c <= 0xffff then [c] else [0xd800 + (c - 0x1_0000) / 1024, 0xdc00 + (c - 0x1_0000) % 1024]
  }

  function Decode(b: seq<nat>): seq<nat> {
    if b == [] || Extent(b[0]) > |b| then []
    else UnitsOf(FirstPoint(b)) + Decode(b[Extent(b[0])..])
  }

  /** The digits of a number to the base 64. */
  lemma Digits(c: nat)
    ensures c / 64 == c / 4096 * 64 + c / 64 % 64
    ensures c / 4096 == c / 262144 * 64 + c / 4096 % 64
    ensures c == c / 64 * 64 + c % 64
  {
  }

  lemma LastDigit(q: nat, z: nat)
    requires z < 64
    ensures (q * 64 + z) / 64 == q && (q * 64 + z) % 64 == z
  {
  }

  lemma DigitsAreUnique(w: nat, x: nat, y: nat, z: nat, c: nat)
    requires x < 64 && y < 64 && z < 64 && c == w * 262144 + x * 4096 + y * 64 + z
    ensures z == c % 64 && y == c / 64 % 64 && x == c / 4096 % 64 && w == c / 262144
  {
    LastDigit(w * 4096 + x * 64 + y, z);
    LastDigit(w * 64 + x, y);
    LastDigit(w, x);
    Digits(c);
  }

  /** Mark and payload of a byte come apart again. */
  lemma Payloads(p: nat)
    ensures p < 64 ==> (128 + p) % 64 == p
    ensures p < 32 ==> (192 + p) % 32 == p
    ensures p < 16 ==> (224 + p) % 16 == p
    ensures p < 8 ==> (240 + p) % 8 == p
  {
  }

  lemma OnePoint(c: nat, rest: seq<nat>)
    requires c <= 0x10_ffff
    ensures Bytes(c) != [] && Extent(Bytes(c)[0]) == |Bytes(c)| && FirstPoint(Bytes(c) + rest) == c
  {
    Digits(c);
    Payloads(c % 64);
    if c > 65535 {
      FourBytes(c);
    } else if c > 2047 {
      Payloads(c / 64 % 64);
      Payloads(c / 4096);
    } else if c > 127 {
      Payloads(c / 64);
    }
  }

  lemma FourBytes(c: nat)
    requires 65535 < c <= 0x10_ffff
    ensures (240 + c / 262144 % 8) % 8 * 262144 + (128 + c / 4096 % 64) % 64 * 4096
      + (128 + c / 64 % 64) % 64 * 64 + (128 + c % 64) % 64 == c
  {
    Digits(c);
    Payloads(c % 64);
    Payloads(c / 64 % 64);
    Payloads(c / 4096 % 64);
    Payloads(c / 262144);
  }

  lemma PairComesBack(a: nat, e: nat)
    requires High(a) && Low(e)
    ensures 0xffff < Combine(a, e) <= 0x10_ffff && UnitsOf(Combine(a, e)) == [a, e]
  {
  }

  lemma DecodeAhead(c: nat, rest: seq<nat>)
    requires c <= 0x10_ffff
    ensures Decode(Bytes(c) + rest) == UnitsOf(c) + Decode(rest)
  {
    OnePoint(c, rest);
    assert (Bytes(c) + rest)[|Bytes(c)|..] == rest;
  }

  /** The code point that a string begins with, and what follows it. */
  lemma FirstOf(s: seq<nat>) returns (c: nat, rest: seq<nat>)
    requires Units(s) && s != []
    ensures c <= 0x10_ffff && Encode(s) == Bytes(c) + Encode(rest)
    ensures s == UnitsOf(c) + rest && |rest| < |s| && Units(rest)
  {
    assert s[0..] == s;
    EncodeAhead(s, 0);
    if PairAt(s, 0) {
      c, rest := Combine(s[0], s[1]), s[2..];
      PairComesBack(s[0], s[1]);
    } else {
      c, rest := s[0], s[1..];
    }
  }

  /** Decoding gives back exactly the code units, lone surrogates included. */
  lemma {:induction false} DecodeEncode(s: seq<nat>)
    requires Units(s)
    ensures Decode(Encode(s)) == s
    decreases |s|
  {
    if s != [] {
      var c, rest := FirstOf(s);
      DecodeEncode(rest);
      DecodeAhead(c, Encode(rest));
    }
  }

  /** No two strings have the same bytes. */
  lemma EncodeIsInjective(s: seq<nat>, t: seq<nat>)
    requires Units(s) && Units(t) && Encode(s) == Encode(t)
    ensures s == t
  {
    DecodeEncode(s);
    DecodeEncode(t);
  }

  // ----- section 3 of RFC 3629

  predicate Tail(b: nat) {
    0x80 <= b <= 0xbf
  }

  /** The row of the table that the character number falls in, its bits in the places of the x's. */
  predicate Row(c: nat, b: seq<nat>) {
    if c <= 0x7f then |b| == 1 && b[0] == c
    else if c <= 0x7ff then
      |b| == 2 && 0xc0 <= b[0] <= 0xdf && Tail(b[1]) && c == (b[0] - 0xc0) * 0x40 + (b[1] - 0x80)
    else if c <= 0xffff then
      && |b| == 3 && 0xe0 <= b[0] <= 0xef && Tail(b[1]) && Tail(b[2])
      && c == (b[0] - 0xe0) * 0x1000 + (b[1] - 0x80) * 0x40 + (b[2] - 0x80)
    else
      && |b| == 4 && 0xf0 <= b[0] <= 0xf7 && Tail(b[1]) && Tail(b[2]) && Tail(b[3])
      && c == (b[0] - 0xf0) * 0x4_0000 + (b[1] - 0x80) * 0x1000 + (b[2] - 0x80) * 0x40 + (b[3] - 0x80)
  }

  /** Unicode characters: up to 10FFFF without the surrogates. */
  predicate IsCharacter(c: nat) {
    c <= 0xd7ff || 0xe000 <= c <= 0x10_ffff
  }

  /** Every surrogate is half of a pair. */
  ghost predicate WellFormed(s: seq<nat>) {
    if s == [] then true
    else if High(s[0]) then |s| > 1 && Low(s[1]) && WellFormed(s[2..])
    else IsUnit(s[0]) && !Low(s[0]) && WellFormed(s[1..])
  }

  /** The bytes are rows of the table for the characters, one after the other. */
  ghost predicate Rows(cs: seq<nat>, b: seq<nat>) {
    if cs == [] then b == []
    else exists n: nat :: n <= |b| && Row(cs[0], b[..n]) && Rows(cs[1..], b[n..])
  }

  lemma BytesAreRow(c: nat)
    requires c <= 0x10_ffff
    ensures Row(c, Bytes(c))
  {
    Digits(c);
    if c > 0xffff {
      FourBytesAreRow(c);
    }
  }

  lemma FourBytesAreRow(c: nat)
    requires 0xffff < c <= 0x10_ffff
    ensures Row(c, Bytes(c))
  {
    Digits(c);
  }

  /** The table leaves no choice. */
  lemma RowIsBytes(c: nat, b: seq<nat>)
    requires c <= 0x10_ffff && Row(c, b)
    ensures b == Bytes(c)
  {
    if c > 0xffff {
      FourByteRow(c, b);
    } else if c > 0x7ff {
      ThreeByteRow(c, b);
    } else if c > 0x7f {
      DigitsAreUnique(0, 0, b[0] - 0xc0, b[1] - 0x80, c);
    }
  }

  lemma ThreeByteRow(c: nat, b: seq<nat>)
    requires 0x7ff < c <= 0xffff && Row(c, b)
    ensures b == Bytes(c)
  {
    DigitsAreUnique(0, b[0] - 0xe0, b[1] - 0x80, b[2] - 0x80, c);
  }

  lemma FourByteRow(c: nat, b: seq<nat>)
    requires 0xffff < c <= 0x10_ffff && Row(c, b)
    ensures b == Bytes(c)
  {
    DigitsAreUnique(b[0] - 0xf0, b[1] - 0x80, b[2] - 0x80, b[3] - 0x80, c);
  }

  /** Of a well-formed string the code points are characters and the bytes are theirs. */
  lemma {:induction false} EncodesCharacters(s: seq<nat>)
    requires WellFormed(s)
    ensures forall i :: 0 <= i < |CodePoints(s)| ==> IsCharacter(CodePoints(s)[i])
    ensures Rows(CodePoints(s), Encode(s))
    decreases |s|
  {
    if s != [] {
      var cs := CodePoints(s);
      if High(s[0]) {
        PairComesBack(s[0], s[1]);
        EncodesCharacters(s[2..]);
        assert cs[1..] == CodePoints(s[2..]);
      } else {
        EncodesCharacters(s[1..]);
        assert cs[1..] == CodePoints(s[1..]);
      }
      BytesAreRow(cs[0]);
      var b := Join(cs);
      var n := |Bytes(cs[0])|;
      assert b[..n] == Bytes(cs[0]) && b[n..] == Join(cs[1..]);
      forall i | 0 <= i < |cs|
        ensures IsCharacter(cs[i])
      {
        assert i > 0 ==> cs[i] == cs[1..][i - 1];
      }
    }
  }
}
