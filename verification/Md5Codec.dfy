/** The codec of 32-bit words: bytes in their places, by shifts and bitwise operations. */
module Md5Codec {
  import opened Arithmetic
  import opened Common
  import opened Md5Words
  import opened Md5Pack
  import opened Md5Block

  function Word4(a: Byte, b: Byte, c: Byte, d: Byte): Word {
    a + 256 * b + 65536 * c + 16777216 * d
  }

  /** w | v << 8 * n. */
  function OrByte(w: Word, v: Byte, n: nat): Word {
    PowWord();
    OrBound(w, Shl(v, 8 * n) % 0x1_0000_0000, 32);
    Or(w, Shl(v, 8 * n) % 0x1_0000_0000)
  }

  function XorWord(x: Word, y: Word): Word {
    PowWord();
    XorBound(x, y, 32);
    Xor(x, y)
  }

  function XorByte(x: Byte, y: Byte): Byte {
    PowWord();
    XorBound(x, y, 8);
    Xor(x, y)
  }

  /** (w >>> 8 * n) & 255. */
  function PlaceOf(w: Word, n: nat): Byte {
    Digit(w, n)
  }

  function NumberOf(n: nat): Word {
    n % 0x1_0000_0000
  }

  const WORDS: Codec<Word> := Codec(Word4, PlaceOf, OrByte, NumberOf, XorWord, XorByte)

  // ----- or and xor on places

  lemma OrAbove(w: nat, v: nat, k: nat)
    requires w < Pow2(k) && Shl(v, k) < 0x1_0000_0000
    ensures Or(w, Shl(v, k) % 0x1_0000_0000) == w + Shl(v, k)
  {
    var u := Shl(v, k);
    OrIsSum(v, w, k);
    OrCommutes(w, u);
    SmallModulo(u);
  }

  lemma SmallModulo(u: nat)
    requires u < 0x1_0000_0000
    ensures u % 0x1_0000_0000 == u
  {
  }

  lemma ByteShifts(v: nat)
    ensures Shl(v, 8) == 256 * v && Shl(v, 16) == 65536 * v && Shl(v, 24) == 16777216 * v
  {
    ShlByte(v);
    ShlShl(v, 8, 8);
    ShlByte(Shl(v, 8));
    ShlShl(v, 16, 8);
    ShlByte(Shl(v, 16));
  }

  lemma BytePowers()
    ensures Pow2(8) == 256 && Pow2(16) == 65536 && Pow2(24) == 16777216
  {
    assert Pow2(8) == 256;
    assert Pow2(16) == 65536;
  }

  lemma OrFirst(v: Byte)
    ensures OrByte(Word4(0, 0, 0, 0), v, 0) == Word4(v, 0, 0, 0)
  {
    OrAbove(0, v, 0);
  }

  lemma OrSecond(a: Byte, v: Byte)
    ensures OrByte(Word4(a, 0, 0, 0), v, 1) == Word4(a, v, 0, 0)
  {
    ByteShifts(v);
    BytePowers();
    OrAbove(a, v, 8);
  }

  lemma OrThird(a: Byte, b: Byte, v: Byte)
    ensures OrByte(Word4(a, b, 0, 0), v, 2) == Word4(a, b, v, 0)
  {
    ByteShifts(v);
    BytePowers();
    OrAbove(Word4(a, b, 0, 0), v, 16);
  }

  lemma OrFourth(a: Byte, b: Byte, c: Byte, v: Byte)
    ensures OrByte(Word4(a, b, c, 0), v, 3) == Word4(a, b, c, v)
  {
    ByteShifts(v);
    BytePowers();
    OrAbove(Word4(a, b, c, 0), v, 24);
  }

  lemma PlacesMakeWord(w: Word)
    ensures Word4(PlaceOf(w, 0), PlaceOf(w, 1), PlaceOf(w, 2), PlaceOf(w, 3)) == w
  {
    assert w / 65536 == w / 256 / 256 && w / 16777216 == w / 65536 / 256;
  }

  lemma XorTail(x: nat, x0: Byte, x1: nat, y: nat, m: Byte, y1: nat)
    requires x == x0 + 256 * x1 && y == m + 256 * y1
    ensures Xor(x, y) == Xor(x0, m) + 256 * Xor(x1, y1)
  {
    XorTailAt(x, x0, x1, y, m, y1, 8);
    ShlByte(Xor(x1, y1));
  }

  lemma XorTailAt(x: nat, x0: Byte, x1: nat, y: nat, m: Byte, y1: nat, k: nat)
    requires x == x0 + 256 * x1 && y == m + 256 * y1 && k == 8
    ensures Xor(x, y) == Xor(x0, m) + Shl(Xor(x1, y1), k)
  {
    PowWord();
    ShlByte(x1);
    ShlByte(y1);
    XorSplits(x, x0, x1, y, m, y1, k);
  }

  lemma XorFour(a: Byte, b: Byte, c: Byte, d: Byte, m: Byte, x1: nat, x2: nat, x3: nat, y1: nat, y2: nat, y3: nat)
    requires x1 == c + 256 * d && x2 == b + 256 * x1 && x3 == a + 256 * x2
    requires y1 == m + 256 * m && y2 == m + 256 * y1 && y3 == m + 256 * y2
    ensures Xor(x3, y3) == Xor(a, m) + 256 * Xor(b, m) + 65536 * Xor(c, m) + 16777216 * Xor(d, m)
  {
    XorTail(x3, a, x2, y3, m, y2);
    XorTail(x2, b, x1, y2, m, y1);
    XorTail(x1, c, d, y1, m, m);
  }

  lemma XorPlaces(a: Byte, b: Byte, c: Byte, d: Byte, m: Byte)
    ensures XorWord(Word4(a, b, c, d), Word4(m, m, m, m)) ==
      Word4(XorByte(a, m), XorByte(b, m), XorByte(c, m), XorByte(d, m))
  {
    var x2, y2 := b + 256 * (c + 256 * d), m + 256 * (m + 256 * m);
    XorFour(a, b, c, d, m, c + 256 * d, x2, Word4(a, b, c, d), m + 256 * m, y2, Word4(m, m, m, m));
  }

  // ----- the laws

  lemma OrFirstAt(v: Byte, n: nat)
    requires n == 0
    ensures WORDS.or(WORDS.pack(0, 0, 0, 0), v, n) == WORDS.pack(v, 0, 0, 0)
  {
    OrFirst(v);
  }

  lemma FirstPlaces()
    ensures forall v: Byte, n: nat :: n == 0 ==> WORDS.or(WORDS.pack(0, 0, 0, 0), v, n) == WORDS.pack(v, 0, 0, 0)
  {
    forall v: Byte, n: nat | n == 0
      ensures WORDS.or(WORDS.pack(0, 0, 0, 0), v, n) == WORDS.pack(v, 0, 0, 0)
    {
      OrFirstAt(v, n);
    }
  }

  lemma FirstPlaceHolds()
    ensures FirstPlace(WORDS)
  {
    FirstPlaces();
  }

  lemma SecondPlaceHolds()
    ensures SecondPlace(WORDS)
  {
    forall a: Byte, v: Byte ensures WORDS.or(WORDS.pack(a, 0, 0, 0), v, 1) == WORDS.pack(a, v, 0, 0) {
      OrSecond(a, v);
    }
  }

  lemma ThirdPlaceHolds()
    ensures ThirdPlace(WORDS)
  {
    forall a: Byte, b: Byte, v: Byte ensures WORDS.or(WORDS.pack(a, b, 0, 0), v, 2) == WORDS.pack(a, b, v, 0) {
      OrThird(a, b, v);
    }
  }

  lemma FourthPlaceHolds()
    ensures FourthPlace(WORDS)
  {
    forall a: Byte, b: Byte, c: Byte, v: Byte ensures WORDS.or(WORDS.pack(a, b, c, 0), v, 3) == WORDS.pack(a, b, c, v) {
      OrFourth(a, b, c, v);
    }
  }

  lemma WordOfPlaces(w: Word)
    ensures WORDS.pack(WORDS.place(w, 0), WORDS.place(w, 1), WORDS.place(w, 2), WORDS.place(w, 3)) == w
  {
    PlacesMakeWord(w);
  }

  lemma UnpacksHold()
    ensures Unpacks(WORDS)
  {
    forall w: Word ensures WORDS.pack(WORDS.place(w, 0), WORDS.place(w, 1), WORDS.place(w, 2), WORDS.place(w, 3)) == w {
      WordOfPlaces(w);
    }
  }

  lemma WordOfDigits(n: nat)
    requires n < 0x1_0000_0000
    ensures WORDS.number(n) == WORDS.pack(Digit(n, 0), Digit(n, 1), Digit(n, 2), Digit(n, 3))
  {
    PlacesMakeWord(n);
  }

  lemma NumbersHold()
    ensures Numbers(WORDS)
  {
    forall n: nat | n < 0x1_0000_0000
      ensures WORDS.number(n) == WORDS.pack(Digit(n, 0), Digit(n, 1), Digit(n, 2), Digit(n, 3))
    {
      WordOfDigits(n);
    }
  }

  lemma MasksHold()
    ensures Masks(WORDS)
  {
    forall a: Byte, b: Byte, c: Byte, d: Byte, m: Byte
      ensures WORDS.xor(WORDS.pack(a, b, c, d), WORDS.pack(m, m, m, m))
        == WORDS.pack(WORDS.xorByte(a, m), WORDS.xorByte(b, m), WORDS.xorByte(c, m), WORDS.xorByte(d, m))
    {
      XorPlaces(a, b, c, d, m);
    }
  }

  lemma WordsLawful()
    ensures Lawful(WORDS)
  {
    FirstPlaceHolds();
    SecondPlaceHolds();
    ThirdPlaceHolds();
    FourthPlaceHolds();
    UnpacksHold();
    NumbersHold();
    MasksHold();
  }
}
