/** Arithmetic on 32-bit words, written out on integers: bits, shifts, addition by halves, rotation. */
module Md5Words {
  import opened Arithmetic

  const WORD: int := 0x1_0000_0000

  // ----- bit by bit

  function And(x: nat, y: nat): nat {
    if x == 0 || y == 0 then 0 else (if x % 2 == 1 && y % 2 == 1 then 1 else 0) + 2 * And(x / 2, y / 2)
  }

  function Or(x: nat, y: nat): nat
    decreases x + y
  {
    if x == 0 && y == 0 then 0 else (if x % 2 == 1 || y % 2 == 1 then 1 else 0) + 2 * Or(x / 2, y / 2)
  }

  function Xor(x: nat, y: nat): nat
    decreases x + y
  {
    if x == 0 && y == 0 then 0 else (if x % 2 != y % 2 then 1 else 0) + 2 * Xor(x / 2, y / 2)
  }

  function Shl(x: nat, k: nat): nat {
    if k == 0 then x else 2 * Shl(x, k - 1)
  }

  function Shr(x: nat, k: nat): nat {
    if k == 0 then x else Shr(x, k - 1) / 2
  }

  /** The sign that >> sees. */
  function Signed(x: int): int {
    if x >= 0x8000_0000 then x - WORD else x
  }

  // ----- shifts

  lemma {:induction false} ShlAdd(x: nat, y: nat, k: nat)
    ensures Shl(x + y, k) == Shl(x, k) + Shl(y, k)
  {
    if k > 0 {
      ShlAdd(x, y, k - 1);
    }
  }

  lemma {:induction false} ShlShl(x: nat, i: nat, j: nat)
    ensures Shl(Shl(x, i), j) == Shl(x, i + j)
  {
    if j > 0 {
      ShlShl(x, i, j - 1);
    }
  }

  lemma {:induction false} ShlOne(k: nat)
    ensures Shl(0, k) == 0 && Shl(1, k) == Pow2(k)
  {
    if k > 0 {
      ShlOne(k - 1);
    }
  }

  /** Shifted bits stay below their new bound, with room for as many bits as they moved. */
  lemma {:induction false} ShlBound(x: nat, i: nat, j: nat)
    requires x < Pow2(i)
    ensures Shl(x, j) + Pow2(j) <= Pow2(i + j)
  {
    if j > 0 {
      ShlBound(x, i, j - 1);
    }
  }

  lemma {:induction false} ShrBound(x: nat, k: nat, n: nat)
    requires x < Pow2(n + k)
    ensures Shr(x, k) < Pow2(n)
  {
    if k > 0 {
      ShrBound(x, k - 1, n + 1);
    }
  }

  /** A number is its upper bits and its lower ones. */
  lemma {:induction false} ShrSplits(x: nat, k: nat)
    ensures Shl(Shr(x, k), k) <= x < Shl(Shr(x, k), k) + Pow2(k)
  {
    if k > 0 {
      ShrSplits(x, k - 1);
      var q := Shr(x, k - 1);
      ShlAdd(2 * (q / 2), q % 2, k - 1);
      ShlAdd(q / 2, q / 2, k - 1);
      ShlOne(k - 1);
    }
  }

  lemma ShlByte(x: nat)
    ensures Shl(x, 8) == 256 * x
  {
    assert Shl(x, 1) == 2 * x;
    assert Shl(x, 3) == 8 * x;
    assert Shl(x, 5) == 32 * x;
    assert Shl(x, 7) == 128 * x;
  }

  lemma ShlWord(x: nat)
    ensures Shl(x, 32) == x * WORD
  {
    ShlShl(x, 8, 8);
    ShlShl(x, 16, 8);
    ShlShl(x, 24, 8);
    ShlByte(x);
    ShlByte(Shl(x, 8));
    ShlByte(Shl(x, 16));
    ShlByte(Shl(x, 24));
  }

  lemma {:induction false} ShlIsProduct(x: nat, k: nat)
    ensures Shl(x, k) == x * Pow2(k)
  {
    if k > 0 {
      ShlIsProduct(x, k - 1);
      assert x * (2 * Pow2(k - 1)) == 2 * (x * Pow2(k - 1));
    }
  }

  lemma {:induction false} ShrIsQuotient(x: nat, k: nat)
    ensures Shr(x, k) == x / Pow2(k)
  {
    if k > 0 {
      ShrIsQuotient(x, k - 1);
      DoubleDivisor(x, Pow2(k - 1));
    }
  }

  lemma DoubleDivisor(x: nat, d: nat)
    requires d > 0
    ensures x / (2 * d) == x / d / 2
  {
    HalfOfQuotient(x, d, x / d / 2, x / d % 2, x % d);
  }

  lemma HalfOfQuotient(x: nat, d: nat, h: nat, b: nat, r: nat)
    requires b < 2 && r < d && x == (2 * h + b) * d + r
    ensures x / (2 * d) == h
  {
    assert (2 * h + b) * d == h * (2 * d) + b * d;
    assert b * d == if b == 0 then 0 else d;
    QuotientIs(x, 2 * d, h, b * d + r);
  }

  /** A mask of k low bits takes the remainder. */
  lemma {:induction false} AndMask(x: nat, k: nat)
    ensures And(x, Pow2(k) - 1) == x % Pow2(k)
  {
    if k > 0 {
      var d := Pow2(k - 1);
      AndMask(x / 2, k - 1);
      assert (2 * d - 1) % 2 == 1 && (2 * d - 1) / 2 == d - 1;
      LowBitFirst(x, d);
    }
  }

  lemma LowBitFirst(x: nat, d: nat)
    requires d > 0
    ensures x % (2 * d) == x % 2 + 2 * (x / 2 % d)
  {
    var h := x / 2;
    assert h == h / d * d + h % d;
    assert x == 2 * h + x % 2 == h / d * (2 * d) + (x % 2 + 2 * (h % d));
    QuotientIs(x, 2 * d, h / d, x % 2 + 2 * (h % d));
  }

  // ----- joining bits

  lemma {:induction false} OrZero(x: nat)
    ensures Or(x, 0) == x
  {
    if x > 0 {
      OrZero(x / 2);
    }
  }

  /** An or of disjoint bits is a sum. */
  lemma {:induction false} OrIsSum(x: nat, y: nat, k: nat)
    requires y < Pow2(k)
    ensures Or(Shl(x, k), y) == Shl(x, k) + y
  {
    if k == 0 {
      OrZero(x);
    } else {
      OrIsSum(x, y / 2, k - 1);
    }
  }

  lemma {:induction false} OrCommutes(x: nat, y: nat)
    ensures Or(x, y) == Or(y, x)
    decreases x + y
  {
    if x + y > 0 {
      OrCommutes(x / 2, y / 2);
    }
  }

  lemma {:induction false} OrBound(x: nat, y: nat, k: nat)
    requires x < Pow2(k) && y < Pow2(k)
    ensures Or(x, y) < Pow2(k)
  {
    if k > 0 {
      OrBound(x / 2, y / 2, k - 1);
    }
  }

  lemma {:induction false} XorBound(x: nat, y: nat, k: nat)
    requires x < Pow2(k) && y < Pow2(k)
    ensures Xor(x, y) < Pow2(k)
  {
    if k > 0 {
      XorBound(x / 2, y / 2, k - 1);
    }
  }

  /** Bitwise functions work on low and high bits apart. */
  lemma {:induction false} AndSplits(x: nat, x0: nat, x1: nat, y: nat, y0: nat, y1: nat, k: nat)
    requires x0 < Pow2(k) && y0 < Pow2(k) && x == x0 + Shl(x1, k) && y == y0 + Shl(y1, k)
    ensures And(x, y) == And(x0, y0) + Shl(And(x1, y1), k)
  {
    if k > 0 {
      AndSplits(x / 2, x0 / 2, x1, y / 2, y0 / 2, y1, k - 1);
    }
  }

  lemma {:induction false} OrSplits(x: nat, x0: nat, x1: nat, y: nat, y0: nat, y1: nat, k: nat)
    requires x0 < Pow2(k) && y0 < Pow2(k) && x == x0 + Shl(x1, k) && y == y0 + Shl(y1, k)
    ensures Or(x, y) == Or(x0, y0) + Shl(Or(x1, y1), k)
  {
    if k > 0 {
      OrSplits(x / 2, x0 / 2, x1, y / 2, y0 / 2, y1, k - 1);
    }
  }

  lemma {:induction false} XorSplits(x: nat, x0: nat, x1: nat, y: nat, y0: nat, y1: nat, k: nat)
    requires x0 < Pow2(k) && y0 < Pow2(k) && x == x0 + Shl(x1, k) && y == y0 + Shl(y1, k)
    ensures Xor(x, y) == Xor(x0, y0) + Shl(Xor(x1, y1), k)
  {
    if k > 0 {
      XorSplits(x / 2, x0 / 2, x1, y / 2, y0 / 2, y1, k - 1);
    }
  }

  // ----- addition by halves

  lemma Halves(x: int)
    ensures Signed(x) / 65536 * 65536 + x % 65536 == Signed(x)
  {
  }

  /** Shifting up by half a word keeps the lower half. */
  lemma UpperHalf(b: int, low: int)
    requires 0 <= low < 65536
    ensures (65536 * b) % WORD + low == (65536 * b + low) % WORD
  {
    var q := b / 65536;
    assert 65536 * b == q * WORD + 65536 * (b % 65536);
  }

  lemma SameModulo(x: int, y: int, k: int)
    requires x == y + k * WORD
    ensures x % WORD == y % WORD
  {
  }

  lemma HalvesAdd(a: int, d: int, ah: int, dh: int, c: int)
    requires ah * 65536 + a % 65536 == Signed(a) && dh * 65536 + d % 65536 == Signed(d)
    requires c == a % 65536 + d % 65536
    ensures (65536 * (ah + dh + c / 65536)) % WORD + c % 65536 == (a + d) % WORD
  {
    UpperHalf(ah + dh + c / 65536, c % 65536);
    var x := 65536 * (ah + dh + c / 65536) + c % 65536;
    assert x == Signed(a) + Signed(d);
    SameModulo(a + d, x, (if a >= 0x8000_0000 then 1 else 0) + if d >= 0x8000_0000 then 1 else 0);
  }

  /** Addition modulo 2^32, although only sums of 17 bits and signed halves are formed. */
  function SafeAdd(a: int, d: int): (r: int)
    ensures r == (a + d) % WORD
  {
    Halves(a);
    Halves(d);
    HalvesAdd(a, d, Signed(a) / 65536, Signed(d) / 65536, a % 65536 + d % 65536);
    var c := a % 65536 + d % 65536;
    var b := Signed(a) / 65536 + Signed(d) / 65536 + c / 65536;
    (65536 * b) % WORD + c % 65536
  }

  // ----- rotation

  function RotateOnce(a: nat): nat {
    2 * a % WORD + a / 0x8000_0000
  }

  /** Circular left shift by s positions, one at a time. */
  function Rotate(a: nat, s: nat): nat {
    if s == 0 then a else RotateOnce(Rotate(a, s - 1))
  }

  lemma OnceMore(v: nat, b: nat, u: nat)
    requires b < 2 && u < 0x8000_0000 && v == b * 0x8000_0000 + u
    ensures RotateOnce(v) == 2 * u + b
  {
  }

  lemma Regroup(q: nat, k: nat)
    ensures Shl(q, k) == Shl(q / 2, k + 1) + Shl(q % 2, k)
  {
    ShlAdd(2 * (q / 2), q % 2, k);
    ShlAdd(q / 2, q / 2, k);
  }

  lemma Lift(b: nat, r: nat, q: nat, s: nat, k: nat)
    requires b < 2 && 0 < s && s + k == 32 && r < Pow2(k) && q < Pow2(s - 1)
    ensures Shl(Shl(b, k) + r, s - 1) + q == b * 0x8000_0000 + (Shl(r, s - 1) + q)
    ensures Shl(r, s - 1) + q < 0x8000_0000
  {
    ShlAdd(Shl(b, k), r, s - 1);
    ShlShl(b, k, s - 1);
    TopBit(b);
    ShlBound(r, k, s - 1);
    PowWord();
  }

  lemma TopBit(b: nat)
    requires b < 2
    ensures Shl(b, 31) == b * 0x8000_0000
  {
    ShlOne(31);
    PowWord();
  }

  lemma RotateMore(a: nat, b: nat, r: nat, q: nat, s: nat, k: nat)
    requires b < 2 && 0 < s && s + k == 32 && r < Pow2(k) && q < Pow2(s - 1)
    requires Rotate(a, s - 1) == Shl(Shl(b, k) + r, s - 1) + q
    ensures Rotate(a, s) == Shl(r, s) + 2 * q + b
  {
    Lift(b, r, q, s, k);
    OnceMore(Rotate(a, s - 1), b, Shl(r, s - 1) + q);
  }

  lemma HalvesFit(q: nat, r: nat, s: nat, k: nat)
    requires 0 < s && q < Pow2(s) && r < Pow2(k)
    ensures q / 2 < Pow2(s - 1) && Shl(q % 2, k) + r < Pow2(k + 1)
    ensures Shl(q, k) == Shl(q / 2, k + 1) + Shl(q % 2, k)
  {
    Regroup(q, k);
    ShlOne(k);
  }

  /** With q the upper s bits and r the lower k ones, they change places. */
  lemma {:induction false} RotateExchanges(a: nat, q: nat, r: nat, s: nat, k: nat)
    requires s + k == 32 && q < Pow2(s) && r < Pow2(k) && a == Shl(q, k) + r
    ensures Rotate(a, s) == Shl(r, s) + q
  {
    if s == 0 {
      RotateNot(a, q, r, s, k);
    } else {
      var h, b := q / 2, q % 2;
      HalvesFit(q, r, s, k);
      RotateExchanges(a, h, Shl(b, k) + r, s - 1, k + 1);
      RotateMore(a, b, r, h, s, k);
    }
  }

  lemma RotateNot(a: nat, q: nat, r: nat, s: nat, k: nat)
    requires s == 0 && q < Pow2(s) && a == Shl(q, k) + r
    ensures Rotate(a, s) == Shl(r, s) + q
  {
    assert q == 0;
    ShlOne(k);
  }

  lemma ModWord(q: nat, u: nat)
    requires u < WORD
    ensures (q * WORD + u) % WORD == u
  {
  }

  lemma LowPartUp(a: nat, q: nat, r: nat, s: nat)
    requires 0 < s < 32 && a == Shl(q, 32 - s) + r && r < Pow2(32 - s)
    ensures Shl(a, s) % WORD == Shl(r, s)
  {
    ShlAdd(Shl(q, 32 - s), r, s);
    ShlShl(q, 32 - s, s);
    ShlWord(q);
    ShlBound(r, 32 - s, s);
    PowWord();
    ModWord(q, Shl(r, s));
  }

  /** The shifted parts that the code joins are those two. */
  lemma RotateIs(a: nat, s: nat)
    requires a < WORD && 0 < s < 32
    ensures Or(Shl(a, s) % WORD, Shr(a, 32 - s)) == Rotate(a, s)
  {
    var q := Shr(a, 32 - s);
    ShrSplits(a, 32 - s);
    UpperPart(a, s);
    JoinedParts(a, q, a - Shl(q, 32 - s), s);
  }

  lemma UpperPart(a: nat, s: nat)
    requires a < WORD && s < 32
    ensures Shr(a, 32 - s) < Pow2(s)
  {
    PowWord();
    ShrBound(a, 32 - s, s);
  }

  lemma JoinedParts(a: nat, q: nat, r: nat, s: nat)
    requires 0 < s < 32 && a == Shl(q, 32 - s) + r && q < Pow2(s) && r < Pow2(32 - s)
    ensures Or(Shl(a, s) % WORD, q) == Rotate(a, s)
  {
    RotateExchanges(a, q, r, s, 32 - s);
    LowPartUp(a, q, r, s);
    OrIsSum(r, q, s);
  }

  /** (a << s) | (a >>> (32 - s)): a rotation. */
  function BitRol(a: nat, s: nat): (r: nat)
    requires a < WORD && 0 < s < 32
    ensures r == Rotate(a, s)
  {
    RotateIs(a, s);
    Or(Shl(a, s) % WORD, Shr(a, 32 - s))
  }
}
