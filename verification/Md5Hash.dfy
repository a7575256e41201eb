/**
 Padding, the loop over the blocks, and the keyed hash, against sections 3.1 to 3.5 of RFC 1321 and section 2
 of RFC 2104; for any words that obey the laws of a codec and any operation of the steps.
 */
module Md5Hash {
  import opened Common
  import opened Md5Rounds
  import opened Md5Pack

  // ----- RFC 1321

  function ZeroBytes(n: nat): (r: seq<Byte>)
    ensures |r| == n && forall i :: 0 <= i < n ==> r[i] == 0
  {
    seq(n, _ => 0)
  }

  /** A 64-bit number, low byte first. */
  function LengthBytes(n: nat): (r: seq<Byte>)
    ensures |r| == 8
  {
    var high := n / 0x1_0000_0000;
    [Digit(n, 0), Digit(n, 1), Digit(n, 2), Digit(n, 3), Digit(high, 0), Digit(high, 1), Digit(high, 2), Digit(high, 3)]
  }

  /** Sections 3.1 and 3.2: a one bit, zeros up to 56 bytes modulo 64, and the length in bits. */
  function Padded(s: seq<Byte>): seq<Byte> {
    s + [0x80] + ZeroBytes((55 - |s|) % 64) + LengthBytes(8 * |s|)
  }

  lemma RoundUp(n: nat)
    ensures n + 9 + (55 - n) % 64 == ((n + 8) / 64 + 1) * 64
  {
  }

  lemma NothingBetween(n: nat, m: nat)
    requires m % 64 == 0 && m >= n + 9
    ensures m >= ((n + 8) / 64 + 1) * 64
  {
  }

  /** The padded message is the shortest one of whole blocks that has room for the bit and the length. */
  lemma PaddedLength(s: seq<Byte>)
    ensures |Padded(s)| == ((|s| + 8) / 64 + 1) * 64
    ensures forall m: nat :: m % 64 == 0 && m >= |s| + 1 + 8 ==> m >= |Padded(s)|
  {
    RoundUp(|s|);
    forall m: nat | m % 64 == 0 && m >= |s| + 1 + 8
      ensures m >= |Padded(s)|
    {
      NothingBetween(|s|, m);
    }
  }

  function BlockAt<W>(k: Codec<W>, s: seq<Byte>, g: nat): (r: seq<W>)
    ensures |r| == 16
  {
    seq(16, j requires 0 <= j => WordAt(k, s, g + j))
  }

  type Compression<!W> = (seq<W>, Registers<W>) -> Registers<W>

  /** The blocks from word g on. */
  function Fold<W>(f: Compression<W>, k: Codec<W>, s: seq<Byte>, g: nat, r: Registers<W>): Registers<W>
    decreases |s| - 4 * g
  {
    if 4 * g >= |s| then r else Fold(f, k, s, g + 16, f(BlockAt(k, s, g), r))
  }

  function CompressionBy<W>(op: Ops<W>): Compression<W> {
    (x: seq<W>, r: Registers<W>) => if |x| == 16 then Compress(op, x, r) else r
  }

  function Initial<W>(k: Codec<W>): Registers<W> {
    Registers(k.number(0x6745_2301), k.number(0xefcd_ab89), k.number(0x98ba_dcfe), k.number(0x1032_5476))
  }

  function Words<W>(r: Registers<W>): seq<W> {
    [r.a, r.b, r.c, r.d]
  }

  /** The digest of a byte string, as words. */
  function Digest<W>(op: Ops<W>, k: Codec<W>, s: seq<Byte>): (r: seq<W>)
    ensures |r| == 4
  {
    Words(Fold(CompressionBy(op), k, Padded(s), 0, Initial(k)))
  }

  // ----- the padded array

  /** Where the length goes: the last word but one of the last block. */
  function LengthIndex(s: seq<Byte>): nat {
    (|s| + 8) / 64 * 16 + 14
  }

  lemma PaddedByte(s: seq<Byte>, j: nat)
    requires j < 4 * LengthIndex(s)
    ensures ByteAt(Padded(s), j) == ByteAt(s + [0x80], j)
  {
    PaddedLength(s);
  }

  lemma LengthByte(s: seq<Byte>, n: nat)
    requires n < 8 && 8 * |s| < 0x8000_0000
    ensures ByteAt(Padded(s), 4 * LengthIndex(s) + n) == if n < 4 then Digit(8 * |s|, n) else 0
  {
    PaddedLength(s);
    var front := s + [0x80] + ZeroBytes((55 - |s|) % 64);
    assert Padded(s)[|front| + n] == LengthBytes(8 * |s|)[n];
  }

  lemma PaddedFront<W>(k: Codec<W>, s: seq<Byte>, i: nat)
    requires i < LengthIndex(s)
    ensures WordAt(k, Padded(s), i) == WordAt(k, s + [0x80], i)
  {
    PaddedByte(s, 4 * i);
    PaddedByte(s, 4 * i + 1);
    PaddedByte(s, 4 * i + 2);
    PaddedByte(s, 4 * i + 3);
  }

  /** Word for word, the padded message is the message with its one bit, the length, and a zero. */
  lemma PaddedWord<W(!new)>(k: Codec<W>, s: seq<Byte>, i: nat)
    requires Lawful(k) && 8 * |s| < 0x8000_0000 && i < LengthIndex(s) + 2
    ensures WordAt(k, Padded(s), i) ==
      if i < LengthIndex(s) then WordAt(k, s + [0x80], i)
      else if i == LengthIndex(s) then k.number(8 * |s|)
      else k.pack(0, 0, 0, 0)
  {
    if i < LengthIndex(s) {
      PaddedFront(k, s, i);
    } else {
      var n := 4 * (i - LengthIndex(s));
      LengthByte(s, n);
      LengthByte(s, n + 1);
      LengthByte(s, n + 2);
      LengthByte(s, n + 3);
    }
  }

  /** The array of the program after its two stores holds the padded message. */
  ghost predicate HoldsPadded<W>(k: Codec<W>, p: seq<W>, s: seq<Byte>) {
    && |p| == LengthIndex(s) + 1
    && forall i: nat {:trigger At(k, p, i)} :: i < LengthIndex(s) + 2 ==> At(k, p, i) == WordAt(k, Padded(s), i)
  }

  method Pad<W(!new)>(k: Codec<W>, p0: seq<W>, bits: nat, ghost s: seq<Byte>) returns (p: seq<W>)
    requires Lawful(k) && Packs(k, p0, s) && |p0| == (|s| + 3) / 4 && bits == 8 * |s| < 0x8000_0000
    ensures HoldsPadded(k, p, s)
  {
    p := OrInto(k, p0, bits, 128, s);
    assert (bits + 64) / 512 * 16 + 14 == LengthIndex(s);
    ghost var q := p;
    p := Store(k, p, (bits + 64) / 512 * 16 + 14, k.number(bits));
    forall i: nat | i < LengthIndex(s) + 2
      ensures At(k, p, i) == WordAt(k, Padded(s), i)
    {
      PaddedWord(k, s, i);
      assert i < LengthIndex(s) ==> At(k, p, i) == At(k, q, i);
    }
  }

  /** The array holds all words of the byte string of n blocks but the last, which reads as 0. */
  ghost predicate HoldsWords<W>(k: Codec<W>, p: seq<W>, s: seq<Byte>, n: nat) {
    && |p| + 1 == 16 * n && |s| == 64 * n
    && forall i: nat {:trigger At(k, p, i)} :: i < |p| + 1 ==> At(k, p, i) == WordAt(k, s, i)
  }

  lemma SameBlock<W>(k: Codec<W>, p: seq<W>, s: seq<Byte>, n: nat, g: nat, x: seq<W>)
    requires HoldsWords(k, p, s, n) && g + 16 <= |p| + 1 && |x| == 16
    requires forall j: nat :: j < 16 ==> x[j] == At(k, p, g + j)
    ensures x == BlockAt(k, s, g)
  {
    forall j: nat | j < 16
      ensures x[j] == BlockAt(k, s, g)[j]
    {
      assert At(k, p, g + j) == WordAt(k, s, g + j);
    }
  }

  lemma FoldStep<W>(f: Compression<W>, k: Codec<W>, s: seq<Byte>, g: nat, r: Registers<W>)
    requires 4 * g < |s|
    ensures Fold(f, k, s, g, r) == Fold(f, k, s, g + 16, f(BlockAt(k, s, g), r))
  {
  }

  lemma FoldEnds<W>(f: Compression<W>, k: Codec<W>, s: seq<Byte>, g: nat, r: Registers<W>)
    requires 4 * g >= |s|
    ensures Fold(f, k, s, g, r) == r
  {
  }

  /** One turn of the loop over the blocks: what remains to be hashed leads to the same end. */
  method Turn<W>(op: Ops<W>, k: Codec<W>, p: seq<W>, g: nat, r: Registers<W>, ghost s: seq<Byte>, ghost n: nat,
                 ghost end: Registers<W>)
    returns (c: Registers<W>)
    requires HoldsWords(k, p, s, n) && g + 16 <= 16 * n && Fold(CompressionBy(op), k, s, g, r) == end
    ensures Fold(CompressionBy(op), k, s, g + 16, c) == end
  {
    var x := seq(16, j requires 0 <= j => At(k, p, g + j));
    SameBlock(k, p, s, n, g, x);
    c := Block(op, x, r);
    FoldStep(CompressionBy(op), k, s, g, r);
  }

  /** Before the last word a whole block follows; behind it nothing. */
  lemma BlocksLeft(g: nat, b: nat, n: nat, words: nat, bytes: nat)
    requires g == 16 * b && b <= n && words + 1 == 16 * n && bytes == 64 * n
    ensures g < words ==> b + 1 <= n && g + 16 <= 16 * n
    ensures g >= words ==> 4 * g >= bytes
  {
  }

  /** The loop over the blocks. */
  method Blocks<W>(op: Ops<W>, k: Codec<W>, p: seq<W>, initial: Registers<W>, ghost s: seq<Byte>, ghost n: nat)
    returns (state: Registers<W>)
    requires HoldsWords(k, p, s, n)
    ensures state == Fold(CompressionBy(op), k, s, 0, initial)
  {
    state := initial;
    var g := 0;
    ghost var b, end := 0, Fold(CompressionBy(op), k, s, 0, initial);
    while g < |p|
      invariant g == 16 * b && b <= n
      invariant Fold(CompressionBy(op), k, s, g, state) == end
      decreases |p| + 1 - g
    {
      BlocksLeft(g, b, n, |p|, |s|);
      state := Turn(op, k, p, g, state, s, n, end);
      g, b := g + 16, b + 1;
    }
    BlocksLeft(g, b, n, |p|, |s|);
    FoldEnds(CompressionBy(op), k, s, g, state);
  }

  lemma PaddedHolds<W>(k: Codec<W>, p: seq<W>, s: seq<Byte>) returns (n: nat)
    requires HoldsPadded(k, p, s)
    ensures HoldsWords(k, p, Padded(s), n)
  {
    PaddedLength(s);
    n := (|s| + 8) / 64 + 1;
  }

  method BinlMd5<W(!new)>(op: Ops<W>, k: Codec<W>, p0: seq<W>, bits: nat, ghost s: seq<Byte>) returns (r: seq<W>)
    requires Lawful(k) && Packs(k, p0, s) && |p0| == (|s| + 3) / 4 && bits == 8 * |s| < 0x8000_0000
    ensures r == Digest(op, k, s)
  {
    var p := Pad(k, p0, bits, s);
    ghost var n := PaddedHolds(k, p, s);
    var initial := Registers(k.number(1732584193), k.number(Unsigned(-271733879)), k.number(Unsigned(-1732584194)),
                             k.number(271733878));
    var state := Blocks(op, k, p, initial, Padded(s), n);
    r := Words(state);
  }

  // ----- RFC 2104

  function Hashed<W>(op: Ops<W>, k: Codec<W>, s: seq<Byte>): seq<Byte> {
    BytesOf(k, Digest(op, k, s))
  }

  /** The key, or its hash if it is longer than a block, with zeros up to a block. */
  function KeyBlock<W>(op: Ops<W>, k: Codec<W>, key: seq<Byte>): (r: seq<Byte>)
    ensures |r| == 64
  {
    var short := if |key| > 64 then Hashed(op, k, key) else key;
    BytesLength(k, Digest(op, k, key));
    short + ZeroBytes(64 - |short|)
  }

  function Masked<W>(k: Codec<W>, s: seq<Byte>, m: Byte): (r: seq<Byte>)
    ensures |r| == |s|
  {
    seq<Byte>(|s|, j requires 0 <= j < |s| => k.xorByte(s[j], m))
  }

  /** H(K xor opad, H(K xor ipad, text)). */
  function Hmac<W>(op: Ops<W>, k: Codec<W>, key: seq<Byte>, text: seq<Byte>): seq<Byte> {
    var block := KeyBlock(op, k, key);
    Hashed(op, k, Masked(k, block, 0x5c) + Hashed(op, k, Masked(k, block, 0x36) + text))
  }

  /** The program's array of a masked key block holds the masked bytes. */
  lemma MaskedWord<W(!new)>(k: Codec<W>, block: seq<Byte>, m: Byte, i: nat)
    requires Lawful(k) && |block| == 64 && i < 16
    ensures WordAt(k, Masked(k, block, m), i) == k.xor(WordAt(k, block, i), k.pack(m, m, m, m))
  {
    forall j | 0 <= j < 64
      ensures ByteAt(Masked(k, block, m), j) == k.xorByte(ByteAt(block, j), m)
    {
    }
  }

  /** Words of a whole block in front of other words pack the joined bytes. */
  lemma JoinedPack<W(!new)>(k: Codec<W>, a: seq<W>, block: seq<Byte>, p: seq<W>, s: seq<Byte>)
    requires |a| == 16 && |block| == 64 && Packs(k, p, s) && |p| == (|s| + 3) / 4
    requires forall i: nat :: i < 16 ==> a[i] == WordAt(k, block, i)
    ensures Packs(k, a + p, block + s) && |a + p| == (|block + s| + 3) / 4
  {
    forall i: nat
      ensures At(k, a + p, i) == WordAt(k, block + s, i)
    {
      if i >= 16 {
        assert At(k, p, i - 16) == WordAt(k, s, i - 16);
      }
    }
  }

  lemma KeyBlockIs<W>(op: Ops<W>, k: Codec<W>, key: seq<Byte>, short: seq<Byte>)
    requires short == if |key| > 64 then Hashed(op, k, key) else key
    ensures |short| <= 64 && KeyBlock(op, k, key) == short + ZeroBytes(64 - |short|)
  {
    BytesLength(k, Digest(op, k, key));
  }

  lemma KeyWord<W(!new)>(op: Ops<W>, k: Codec<W>, key: seq<Byte>, e: seq<W>, short: seq<Byte>, i: nat)
    requires short == (if |key| > 64 then Hashed(op, k, key) else key) && Packs(k, e, short) && i < 16
    ensures |short| <= 64 && At(k, e, i) == WordAt(k, KeyBlock(op, k, key), i)
  {
    KeyBlockIs(op, k, key, short);
    ZerosBehind(k, short, 64 - |short|, i);
    assert At(k, e, i) == WordAt(k, short, i);
  }

  lemma ZerosBehind<W>(k: Codec<W>, s: seq<Byte>, n: nat, i: nat)
    ensures WordAt(k, s + ZeroBytes(n), i) == WordAt(k, s, i)
  {
    assert forall j: nat :: ByteAt(s + ZeroBytes(n), j) == ByteAt(s, j);
  }

  /** The words of the key block. */
  method KeyWords<W(!new)>(op: Ops<W>, k: Codec<W>, key: seq<Byte>) returns (e: seq<W>)
    requires Lawful(k) && 8 * |key| < 0x8000_0000
    ensures forall i: nat {:trigger At(k, e, i)} :: i < 16 ==> At(k, e, i) == WordAt(k, KeyBlock(op, k, key), i)
  {
    e := Rstr2Binl(k, key);
    ghost var short := key;
    if |e| > 16 {
      e := BinlMd5(op, k, e, |key| * 8, key);
      short := Hashed(op, k, key);
      forall i: nat
        ensures At(k, e, i) == WordAt(k, short, i)
      {
        BytesPack(k, e, i);
      }
    }
    forall i: nat | i < 16
      ensures At(k, e, i) == WordAt(k, KeyBlock(op, k, key), i)
    {
      KeyWord(op, k, key, e, short, i);
    }
  }

  /** The loop that masks the sixteen words of the key block. */
  method Mask<W(!new)>(k: Codec<W>, e: seq<W>, w: W) returns (a: seq<W>)
    ensures |a| == 16 && forall i: nat {:trigger At(k, e, i)} :: i < 16 ==> a[i] == k.xor(At(k, e, i), w)
  {
    a := [];
    for b := 0 to 16
      invariant |a| == b && forall i: nat {:trigger At(k, e, i)} :: i < b ==> a[i] == k.xor(At(k, e, i), w)
    {
      a := a + [k.xor(At(k, e, b), w)];
    }
  }

  /** Masking the words of a block masks its bytes. */
  lemma MaskedWords<W(!new)>(k: Codec<W>, e: seq<W>, w: W, a: seq<W>, m: Byte, block: seq<Byte>)
    requires Lawful(k) && |block| == 64 && w == k.pack(m, m, m, m) && |a| == 16
    requires forall i: nat {:trigger At(k, e, i)} :: i < 16 ==> At(k, e, i) == WordAt(k, block, i)
    requires forall i: nat {:trigger At(k, e, i)} :: i < 16 ==> a[i] == k.xor(At(k, e, i), w)
    ensures forall i: nat :: i < 16 ==> a[i] == WordAt(k, Masked(k, block, m), i)
  {
    forall i: nat | i < 16
      ensures a[i] == WordAt(k, Masked(k, block, m), i)
    {
      assert a[i] == k.xor(At(k, e, i), w);
      MaskedWord(k, block, m, i);
    }
  }

  /** The hash of a block, given as words, and the bytes that other words pack. */
  method HashJoined<W(!new)>(op: Ops<W>, k: Codec<W>, a: seq<W>, p: seq<W>, n: nat,
                             ghost block: seq<Byte>, ghost s: seq<Byte>) returns (r: seq<W>)
    requires Lawful(k) && |a| == 16 && |block| == 64 && Packs(k, p, s) && |p| == (|s| + 3) / 4 && n == |s|
    requires forall i: nat :: i < 16 ==> a[i] == WordAt(k, block, i)
    requires 512 + 8 * n < 0x8000_0000
    ensures r == Digest(op, k, block + s)
  {
    JoinedPack(k, a, block, p, s);
    r := BinlMd5(op, k, a + p, 512 + 8 * n, block + s);
  }

  lemma DigestPacks<W(!new)>(op: Ops<W>, k: Codec<W>, s: seq<Byte>)
    requires Lawful(k)
    ensures Packs(k, Digest(op, k, s), Hashed(op, k, s)) && |Hashed(op, k, s)| == 16
  {
    var g := Digest(op, k, s);
    BytesLength(k, g);
    forall i: nat
      ensures At(k, g, i) == WordAt(k, BytesOf(k, g), i)
    {
      BytesPack(k, g, i);
    }
  }

  lemma MaskConstants<W(!new)>(k: Codec<W>)
    requires Lawful(k)
    ensures k.number(909522486) == k.pack(0x36, 0x36, 0x36, 0x36)
    ensures k.number(1549556828) == k.pack(0x5c, 0x5c, 0x5c, 0x5c)
  {
  }

  method RstrHmacMd5<W(!new)>(op: Ops<W>, k: Codec<W>, key: seq<Byte>, text: seq<Byte>) returns (r: seq<Byte>)
    requires Lawful(k) && 8 * |key| < 0x8000_0000 && 512 + 8 * |text| < 0x8000_0000
    ensures r == Hmac(op, k, key, text)
  {
    MaskConstants(k);
    var e := KeyWords(op, k, key);
    ghost var block := KeyBlock(op, k, key);
    var a := Mask(k, e, k.number(909522486));
    var d := Mask(k, e, k.number(1549556828));
    MaskedWords(k, e, k.number(909522486), a, 0x36, block);
    MaskedWords(k, e, k.number(1549556828), d, 0x5c, block);
    var f := Rstr2Binl(k, text);
    var g := HashJoined(op, k, a, f, |text|, Masked(k, block, 0x36), text);
    DigestPacks(op, k, Masked(k, block, 0x36) + text);
    var h := HashJoined(op, k, d, g, 16, Masked(k, block, 0x5c), Hashed(op, k, Masked(k, block, 0x36) + text));
    r := Binl2Rstr(k, h);
  }

  method RstrMd5<W(!new)>(op: Ops<W>, k: Codec<W>, a: seq<Byte>) returns (r: seq<Byte>)
    requires Lawful(k) && 8 * |a| < 0x8000_0000
    ensures r == Hashed(op, k, a)
  {
    var p := Rstr2Binl(k, a);
    var h := BinlMd5(op, k, p, |a| * 8, a);
    r := Binl2Rstr(k, h);
  }

  // ----- block by block

  lemma WordInFront<W>(k: Codec<W>, a: seq<Byte>, b: seq<Byte>, i: nat)
    requires 4 * i + 4 <= |a|
    ensures WordAt(k, a + b, i) == WordAt(k, a, i)
  {
    assert forall j: nat :: j < |a| ==> ByteAt(a + b, j) == ByteAt(a, j);
  }

  lemma WordBehind<W>(k: Codec<W>, a: seq<Byte>, b: seq<Byte>, i: nat, h: nat)
    requires |a| + 4 * i == 4 * h
    ensures WordAt(k, a + b, h) == WordAt(k, b, i)
  {
    assert forall j: nat {:trigger ByteAt(b, j)} :: ByteAt(a + b, |a| + j) == ByteAt(b, j);
  }

  lemma BlockInFront<W>(k: Codec<W>, a: seq<Byte>, b: seq<Byte>, g: nat)
    requires 4 * (g + 16) <= |a|
    ensures BlockAt(k, a + b, g) == BlockAt(k, a, g)
  {
    forall j: nat | j < 16
      ensures BlockAt(k, a + b, g)[j] == BlockAt(k, a, g)[j]
    {
      WordInFront(k, a, b, g + j);
    }
  }

  lemma BlockBehind<W>(k: Codec<W>, a: seq<Byte>, b: seq<Byte>, n: nat, g: nat)
    requires |a| == 64 * n
    ensures BlockAt(k, a + b, 16 * n + g) == BlockAt(k, b, g)
  {
    forall j: nat | j < 16
      ensures BlockAt(k, a + b, 16 * n + g)[j] == BlockAt(k, b, g)[j]
    {
      WordBehind(k, a, b, g + j, 16 * n + g + j);
    }
  }

  lemma {:induction false} FoldBehind<W>(f: Compression<W>, k: Codec<W>, a: seq<Byte>, b: seq<Byte>, n: nat, g: nat,
                                         r: Registers<W>)
    requires |a| == 64 * n
    ensures Fold(f, k, a + b, 16 * n + g, r) == Fold(f, k, b, g, r)
    decreases |b| - 4 * g
  {
    if 4 * g < |b| {
      BlockBehind(k, a, b, n, g);
      FoldStep(f, k, a + b, 16 * n + g, r);
      FoldBehind(f, k, a, b, n, g + 16, f(BlockAt(k, b, g), r));
    }
  }

  /** Hashing goes on with what follows from the registers that whole blocks in front of it leave. */
  lemma {:induction false} FoldChains<W>(f: Compression<W>, k: Codec<W>, a: seq<Byte>, b: seq<Byte>, n: nat, m: nat,
                                         r: Registers<W>)
    requires |a| == 64 * n && m <= n
    ensures Fold(f, k, a + b, 16 * m, r) == Fold(f, k, b, 0, Fold(f, k, a, 16 * m, r))
    decreases n - m
  {
    if m == n {
      FoldBehind(f, k, a, b, n, 0, r);
    } else {
      BlockInFront(k, a, b, 16 * m);
      FoldStep(f, k, a + b, 16 * m, r);
      FoldStep(f, k, a, 16 * m, r);
      FoldChains(f, k, a, b, n, m + 1, f(BlockAt(k, a, 16 * m), r));
    }
  }

  // ----- operations that agree

  ghost predicate SameCompression<W(!new)>(f: Compression<W>, f': Compression<W>) {
    forall x: seq<W>, r: Registers<W> :: |x| == 16 ==> f(x, r) == f'(x, r)
  }

  lemma {:induction false} FoldAgrees<W(!new)>(f: Compression<W>, f': Compression<W>, k: Codec<W>, s: seq<Byte>, g: nat,
                                               r: Registers<W>)
    requires SameCompression(f, f')
    ensures Fold(f, k, s, g, r) == Fold(f', k, s, g, r)
    decreases |s| - 4 * g
  {
    if 4 * g < |s| {
      FoldAgrees(f, f', k, s, g + 16, f(BlockAt(k, s, g), r));
    }
  }

  lemma CompressionAgrees<W(!new)>(op: Ops<W>, op': Ops<W>)
    requires Agree(op, op')
    ensures SameCompression(CompressionBy(op), CompressionBy(op'))
  {
    forall x: seq<W>, r: Registers<W> | |x| == 16
      ensures Compress(op, x, r) == Compress(op', x, r)
    {
      CompressAgrees(op, op', x, r);
    }
  }

  lemma HashedAgrees<W(!new)>(op: Ops<W>, op': Ops<W>, k: Codec<W>, s: seq<Byte>)
    requires Agree(op, op')
    ensures Hashed(op, k, s) == Hashed(op', k, s)
  {
    CompressionAgrees(op, op');
    FoldAgrees(CompressionBy(op), CompressionBy(op'), k, Padded(s), 0, Initial(k));
  }

  lemma HmacAgrees<W(!new)>(op: Ops<W>, op': Ops<W>, k: Codec<W>, key: seq<Byte>, text: seq<Byte>)
    requires Agree(op, op')
    ensures Hmac(op, k, key, text) == Hmac(op', k, key, text)
  {
    HashedAgrees(op, op', k, key);
    var block := KeyBlock(op', k, key);
    assert KeyBlock(op, k, key) == block;
    HashedAgrees(op, op', k, Masked(k, block, 0x36) + text);
    HashedAgrees(op, op', k, Masked(k, block, 0x5c) + Hashed(op', k, Masked(k, block, 0x36) + text));
  }

  /** With a program's operation that agrees with the reference one, the program computes the reference. */
  method HashLike<W(!new)>(op: Ops<W>, ghost op': Ops<W>, k: Codec<W>, a: seq<Byte>) returns (r: seq<Byte>)
    requires Lawful(k) && Agree(op, op') && 8 * |a| < 0x8000_0000
    ensures r == Hashed(op', k, a)
  {
    HashedAgrees(op, op', k, a);
    r := RstrMd5(op, k, a);
  }

  method HmacLike<W(!new)>(op: Ops<W>, ghost op': Ops<W>, k: Codec<W>, key: seq<Byte>, text: seq<Byte>)
    returns (r: seq<Byte>)
    requires Lawful(k) && Agree(op, op') && 8 * |key| < 0x8000_0000 && 512 + 8 * |text| < 0x8000_0000
    ensures r == Hmac(op', k, key, text)
  {
    HmacAgrees(op, op', k, key, text);
    r := RstrHmacMd5(op, k, key, text);
  }
}
