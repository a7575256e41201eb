/** The keyed hash told bit by bit: which bits of the key each of its two masks turns over. */
module Md5Masks {
  import opened Arithmetic
  import opened Common
  import opened Md5Bits
  import opened Md5Block
  import opened Md5Codec
  import opened Md5Hash
  import opened Md5Pack
  import opened Md5Rounds

  lemma {:induction false} NoBitAbove(x: nat, n: nat, k: nat)
    requires x < Pow2(n) && n <= k
    ensures Bit(x, k) == 0
    decreases k
  {
    if k > 0 {
      NextBit(x, k - 1);
      if n > 0 {
        NoBitAbove(x / 2, n - 1, k - 1);
      } else {
        NoBitAbove(0, 0, k - 1);
      }
    }
  }

  lemma BitsOfSum(b: nat, x: nat, k: nat)
    requires b < 2
    ensures Bit(2 * x + b, k) == if k == 0 then b else Bit(x, k - 1)
  {
    NextBit(2 * x + b, if k == 0 then 0 else k - 1);
  }

  lemma NoBits(k: nat)
    ensures Bit(0, k) == 0
  {
    NoBitAbove(0, 0, k);
  }

  predicate InInner(k: nat) {
    k == 1 || k == 2 || k == 4 || k == 5
  }

  predicate InOuter(k: nat) {
    k == 2 || k == 3 || k == 4 || k == 6
  }

  lemma InnerBits(m: nat, k: nat)
    requires m == 0x36
    ensures Bit(m, k) == 1 <==> InInner(k)
  {
    BitsOfSum(0, 27, k);
    if k > 0 { BitsOfSum(1, 13, k - 1); }
    if k > 1 { BitsOfSum(1, 6, k - 2); }
    if k > 2 { BitsOfSum(0, 3, k - 3); }
    if k > 3 { BitsOfSum(1, 1, k - 4); }
    if k > 4 { BitsOfSum(1, 0, k - 5); }
    if k > 5 { NoBits(k - 6); }
  }

  lemma OuterBits(m: nat, k: nat)
    requires m == 0x5c
    ensures Bit(m, k) == 1 <==> InOuter(k)
  {
    BitsOfSum(0, 46, k);
    if k > 0 { BitsOfSum(0, 23, k - 1); }
    if k > 1 { BitsOfSum(1, 11, k - 2); }
    if k > 2 { BitsOfSum(1, 5, k - 3); }
    if k > 3 { BitsOfSum(1, 2, k - 4); }
    if k > 4 { BitsOfSum(0, 1, k - 5); }
    if k > 5 { BitsOfSum(1, 0, k - 6); }
    if k > 6 { NoBits(k - 7); }
  }

  /** A byte that differs from another one in exactly the bits of a mask is that one masked. */
  lemma MaskedByte(x: Byte, m: Byte, y: Byte)
    requires forall k: nat :: k < 8 ==> (Bit(y, k) != Bit(x, k) <==> Bit(m, k) == 1)
    ensures y == XorByte(x, m)
  {
    PowWord();
    forall k: nat
      ensures Bit(XorByte(x, m), k) == Bit(y, k)
    {
      BitOfXor(x, m, k);
      if k >= 8 {
        NoBitAbove(x, 8, k);
        NoBitAbove(m, 8, k);
        NoBitAbove(y, 8, k);
      }
    }
    SameBits(XorByte(x, m), y);
  }

  /** The bytes differ from those of the key, with zeros behind it, in exactly the bits of a mask. */
  ghost predicate Differs(bytes: seq<Byte>, short: seq<Byte>, mask: nat -> bool) {
    && |bytes| == 64
    && forall j: nat, k: nat {:trigger Bit(bytes[j], k)} :: j < 64 && k < 8 ==>
         (Bit(bytes[j], k) != Bit(ByteAt(short, j), k) <==> mask(k))
  }

  lemma MaskedBlock(short: seq<Byte>, m: Byte, mask: nat -> bool, bytes: seq<Byte>)
    requires |short| <= 64 && Differs(bytes, short, mask)
    requires forall k: nat :: Bit(m, k) == 1 <==> mask(k)
    ensures bytes == Masked(WORDS, short + ZeroBytes(64 - |short|), m)
  {
    var block := short + ZeroBytes(64 - |short|);
    forall j: nat | j < 64
      ensures bytes[j] == Masked(WORDS, block, m)[j]
    {
      assert block[j] == ByteAt(short, j);
      MaskedByte(block[j], m, bytes[j]);
    }
  }

  lemma InnerBlock(short: seq<Byte>, bytes: seq<Byte>)
    requires |short| <= 64 && Differs(bytes, short, InInner)
    ensures bytes == Masked(WORDS, short + ZeroBytes(64 - |short|), 0x36)
  {
    forall k: nat
      ensures Bit(0x36, k) == 1 <==> InInner(k)
    {
      InnerBits(0x36, k);
    }
    MaskedBlock(short, 0x36, InInner, bytes);
  }

  lemma OuterBlock(short: seq<Byte>, bytes: seq<Byte>)
    requires |short| <= 64 && Differs(bytes, short, InOuter)
    ensures bytes == Masked(WORDS, short + ZeroBytes(64 - |short|), 0x5c)
  {
    forall k: nat
      ensures Bit(0x5c, k) == 1 <==> InOuter(k)
    {
      OuterBits(0x5c, k);
    }
    MaskedBlock(short, 0x5c, InOuter, bytes);
  }

  lemma HmacOf<W>(op: Ops<W>, k: Codec<W>, key: seq<Byte>, text: seq<Byte>, inner: seq<Byte>, outer: seq<Byte>)
    requires inner == Masked(k, KeyBlock(op, k, key), 0x36) && outer == Masked(k, KeyBlock(op, k, key), 0x5c)
    ensures Hmac(op, k, key, text) == Hashed(op, k, outer + Hashed(op, k, inner + text))
  {
  }

  /**
   Section 2 of RFC 2104: the inner hash turns over the bits 1, 2, 4 and 5 of each byte of the key, the outer
   one the bits 2, 3, 4 and 6; a key longer than a block is hashed first.
   */
  lemma HmacByBits(key: seq<Byte>, text: seq<Byte>, short: seq<Byte>, inner: seq<Byte>, outer: seq<Byte>)
    requires short == if |key| > 64 then Hashed(RFC, WORDS, key) else key
    requires Differs(inner, short, InInner) && Differs(outer, short, InOuter)
    ensures Hmac(RFC, WORDS, key, text) == Hashed(RFC, WORDS, outer + Hashed(RFC, WORDS, inner + text))
  {
    KeyBlockIs(RFC, WORDS, key, short);
    InnerBlock(short, inner);
    OuterBlock(short, outer);
    HmacOf(RFC, WORDS, key, text, inner, outer);
  }
}
