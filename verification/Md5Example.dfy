/** The digest of "abc" as section A.5 of RFC 1321 gives it. */
module Md5Example {
  import opened Common
  import opened Md5Rounds
  import opened Md5Block
  import opened Md5Codec
  import opened Md5Pack
  import opened Md5Hash
  import opened Md5Bytes
  import opened Md5Trace
  import opened Md5Turns

  lemma MessageWord<W>(k: Codec<W>, s: seq<Byte>, i: nat)
    requires s == [97, 98, 99]
    ensures WordAt(k, s + [0x80], i) == if i == 0 then k.pack(97, 98, 99, 0x80) else k.pack(0, 0, 0, 0)
  {
  }

  /** The padded message fills one block. */
  lemma BlockWord<W(!new)>(k: Codec<W>, s: seq<Byte>, i: nat)
    requires Lawful(k) && s == [97, 98, 99] && i < 16
    ensures WordAt(k, Padded(s), i) ==
      if i == 0 then k.pack(97, 98, 99, 0x80) else if i == 14 then k.number(24) else k.pack(0, 0, 0, 0)
  {
    PaddedWord(k, s, i);
    MessageWord(k, s, i);
  }

  lemma WordIs(s: seq<Byte>, i: nat)
    requires s == [97, 98, 99] && i < 16
    ensures WordAt(WORDS, Padded(s), i) == WordOfAbc(i)
  {
    WordsLawful();
    BlockWord(WORDS, s, i);
  }

  lemma BlockIs(s: seq<Byte>)
    requires s == [97, 98, 99]
    ensures AbcBlock(BlockAt(WORDS, Padded(s), 0)) && |Padded(s)| == 64
  {
    PaddedLength(s);
    forall i: nat | i < 16
      ensures BlockAt(WORDS, Padded(s), 0)[i] == WordOfAbc(i)
    {
      WordIs(s, i);
    }
  }

  lemma SixtyFourSteps(x: seq<Word>)
    requires AbcBlock(x)
    ensures Rounds(RFC, x, Regs(Number, 0x67452301, 0xefcdab89, 0x98badcfe, 0x10325476)) ==
      Regs(Number, 0x310ade8f, 0xc08226b3, 0xe484b9d8, 0x624d8cb2)
  {
    Round0OfAbc(x);
    Round1OfAbc(x);
    Round2OfAbc(x);
    Round3OfAbc(x);
  }

  lemma NumberOf32(w: bv32, n: int)
    requires Whole(w) && w as int == n
    ensures Number(w) == n
  {
    WholeIsNumber(w);
  }

  lemma InitialWords()
    ensures Initial(WORDS) == Registers(0x67452301, 0xefcdab89, 0x98badcfe, 0x10325476)
  {
  }

  lemma InitialIs()
    ensures Regs(Number, 0x67452301, 0xefcdab89, 0x98badcfe, 0x10325476) ==
      Registers(0x67452301, 0xefcdab89, 0x98badcfe, 0x10325476)
  {
    NumberOf32(0x67452301, 0x67452301);
    NumberOf32(0xefcdab89, 0xefcdab89);
    NumberOf32(0x98badcfe, 0x98badcfe);
    NumberOf32(0x10325476, 0x10325476);
  }

  lemma LastIs()
    ensures Regs(Number, 0x310ade8f, 0xc08226b3, 0xe484b9d8, 0x624d8cb2) ==
      Registers(0x310ade8f, 0xc08226b3, 0xe484b9d8, 0x624d8cb2)
  {
    NumberOf32(0x310ade8f, 0x310ade8f);
    NumberOf32(0xc08226b3, 0xc08226b3);
    NumberOf32(0xe484b9d8, 0xe484b9d8);
    NumberOf32(0x624d8cb2, 0x624d8cb2);
  }

  lemma CompressIs(x: seq<Word>)
    requires AbcBlock(x)
    ensures Compress(RFC, x, Initial(WORDS)) == Registers(0x98500190, 0xb04fd23c, 0x7d3f96d6, 0x727fe128)
  {
    InitialWords();
    InitialIs();
    SixtyFourSteps(x);
    LastIs();
  }

  lemma DigestIs(s: seq<Byte>)
    requires s == [97, 98, 99]
    ensures Digest(RFC, WORDS, s) == [0x98500190, 0xb04fd23c, 0x7d3f96d6, 0x727fe128]
  {
    BlockIs(s);
    var x := BlockAt(WORDS, Padded(s), 0);
    CompressIs(x);
    var f, r := CompressionBy(RFC), Registers(0x98500190, 0xb04fd23c, 0x7d3f96d6, 0x727fe128);
    FoldStep(f, WORDS, Padded(s), 0, Initial(WORDS));
    FoldEnds(f, WORDS, Padded(s), 16, r);
  }

  function PlacesOf<W>(k: Codec<W>, w: W): seq<Byte> {
    [k.place(w, 0), k.place(w, 1), k.place(w, 2), k.place(w, 3)]
  }

  lemma OneMore<W>(k: Codec<W>, p: seq<W>, w: W)
    ensures BytesOf(k, p + [w]) == BytesOf(k, p) + PlacesOf(k, w)
  {
    assert (p + [w])[..|p|] == p;
  }

  lemma FourWords<W>(k: Codec<W>, a: W, b: W, c: W, d: W)
    ensures BytesOf(k, [a, b, c, d]) == PlacesOf(k, a) + PlacesOf(k, b) + PlacesOf(k, c) + PlacesOf(k, d)
  {
    OneMore(k, [], a);
    OneMore(k, [a], b);
    OneMore(k, [a, b], c);
    OneMore(k, [a, b, c], d);
    assert [] + [a] == [a] && [a] + [b] == [a, b] && [a, b] + [c] == [a, b, c] && [a, b, c] + [d] == [a, b, c, d];
  }

  lemma LowByte(x: nat, a: Byte, r: nat)
    requires x == a + 256 * r
    ensures x % 256 == a && x / 256 == r
  {
  }

  lemma ByteAfterByte(w: nat)
    ensures w / 65536 == w / 256 / 256 && w / 16777216 == w / 256 / 256 / 256
  {
    assert w / 16777216 == w / 65536 / 256;
  }

  lemma Places(w: Word, a: Byte, b: Byte, c: Byte, d: Byte)
    requires w == Word4(a, b, c, d)
    ensures PlacesOf(WORDS, w) == [a, b, c, d]
  {
    var r := c + 256 * d;
    LowByte(w, a, b + 256 * r);
    LowByte(b + 256 * r, b, r);
    LowByte(r, c, d);
    ByteAfterByte(w);
  }

  /** MD5 ("abc") = 900150983cd24fb0d6963f7d28e17f72. */
  lemma Abc(s: seq<Byte>)
    requires s == [97, 98, 99]
    ensures Hashed(RFC, WORDS, s) ==
      [0x90, 0x01, 0x50, 0x98] + [0x3c, 0xd2, 0x4f, 0xb0] + [0xd6, 0x96, 0x3f, 0x7d] + [0x28, 0xe1, 0x7f, 0x72]
  {
    DigestIs(s);
    FourWords(WORDS, 0x98500190, 0xb04fd23c, 0x7d3f96d6, 0x727fe128);
    Places(0x98500190, 0x90, 0x01, 0x50, 0x98);
    Places(0xb04fd23c, 0x3c, 0xd2, 0x4f, 0xb0);
    Places(0x7d3f96d6, 0xd6, 0x96, 0x3f, 0x7d);
    Places(0x727fe128, 0x28, 0xe1, 0x7f, 0x72);
  }
}
