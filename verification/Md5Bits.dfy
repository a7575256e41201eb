/** What the bitwise functions on integers do to each single bit, and so do the functions of MD5 and its rotation. */
module Md5Bits {
  import opened Arithmetic
  import opened Md5Words
  import opened Md5Block

  /** Bit k, counted from the lowest. */
  function Bit(x: nat, k: nat): (b: nat)
    ensures b < 2
  {
    x / Pow2(k) % 2
  }

  lemma NextBit(x: nat, k: nat)
    ensures Bit(x, k + 1) == Bit(x / 2, k) && Bit(x, 0) == x % 2
  {
    var d, h := Pow2(k), x / 2;
    assert h == h / d * d + h % d;
    assert x == h / d * (2 * d) + (x % 2 + 2 * (h % d));
    QuotientIs(x, 2 * d, h / d, x % 2 + 2 * (h % d));
  }

  /** A number is 0 if all its bits are: two numbers with the same bits are equal. */
  lemma {:induction false} SameBits(x: nat, y: nat)
    requires forall k: nat :: Bit(x, k) == Bit(y, k)
    ensures x == y
    decreases x + y
  {
    NextBit(x, 0);
    NextBit(y, 0);
    assert Bit(x, 0) == Bit(y, 0);
    if x + y > 0 {
      forall k: nat
        ensures Bit(x / 2, k) == Bit(y / 2, k)
      {
        NextBit(x, k);
        NextBit(y, k);
        assert Bit(x, k + 1) == Bit(y, k + 1);
      }
      SameBits(x / 2, y / 2);
    }
  }

  lemma {:induction false} BitOfAnd(x: nat, y: nat, k: nat)
    ensures Bit(And(x, y), k) == 1 <==> Bit(x, k) == 1 && Bit(y, k) == 1
    decreases k
  {
    var p := if k == 0 then 0 else k - 1;
    NextBit(And(x, y), p);
    NextBit(x, p);
    NextBit(y, p);
    if k > 0 {
      BitOfAnd(x / 2, y / 2, k - 1);
      HalfOfAnd(x, y);
    }
  }

  lemma HalfOfAnd(x: nat, y: nat)
    ensures And(x, y) / 2 == And(x / 2, y / 2)
  {
  }

  lemma {:induction false} BitOfOr(x: nat, y: nat, k: nat)
    ensures Bit(Or(x, y), k) == 1 <==> Bit(x, k) == 1 || Bit(y, k) == 1
    decreases k
  {
    var p := if k == 0 then 0 else k - 1;
    NextBit(Or(x, y), p);
    NextBit(x, p);
    NextBit(y, p);
    if k > 0 {
      BitOfOr(x / 2, y / 2, k - 1);
      HalfOfOr(x, y);
    }
  }

  lemma HalfOfOr(x: nat, y: nat)
    ensures Or(x, y) / 2 == Or(x / 2, y / 2)
  {
  }

  lemma {:induction false} BitOfXor(x: nat, y: nat, k: nat)
    ensures Bit(Xor(x, y), k) == 1 <==> Bit(x, k) != Bit(y, k)
    decreases k
  {
    var p := if k == 0 then 0 else k - 1;
    NextBit(Xor(x, y), p);
    NextBit(x, p);
    NextBit(y, p);
    if k > 0 {
      BitOfXor(x / 2, y / 2, k - 1);
      HalfOfXor(x, y);
    }
  }

  lemma HalfOfXor(x: nat, y: nat)
    ensures Xor(x, y) / 2 == Xor(x / 2, y / 2)
  {
  }

  lemma {:induction false} BitOfComplement(x: nat, n: nat, k: nat)
    requires k < n && x < Pow2(n)
    ensures Bit(Pow2(n) - 1 - x, k) == 1 <==> Bit(x, k) == 0
    decreases k
  {
    var y, d := Pow2(n) - 1 - x, Pow2(n - 1);
    assert y % 2 == 1 - x % 2 && y / 2 == d - 1 - x / 2;
    NextBit(y, if k == 0 then 0 else k - 1);
    NextBit(x, if k == 0 then 0 else k - 1);
    if k > 0 {
      BitOfComplement(x / 2, n - 1, k - 1);
    }
  }

  /** Every bit of the bitwise functions. */
  lemma BitsOfWords(x: Word, y: Word, k: nat)
    ensures Bit(And(x, y), k) == 1 <==> Bit(x, k) == 1 && Bit(y, k) == 1
    ensures Bit(Or(x, y), k) == 1 <==> Bit(x, k) == 1 || Bit(y, k) == 1
    ensures Bit(Xor(x, y), k) == 1 <==> Bit(x, k) != Bit(y, k)
    ensures k < 32 ==> (Bit(Not(x), k) == 1 <==> Bit(x, k) == 0)
  {
    BitOfAnd(x, y, k);
    BitOfOr(x, y, k);
    BitOfXor(x, y, k);
    if k < 32 {
      PowWord();
      BitOfComplement(x, 32, k);
    }
  }

  /** Section 3.4 of RFC 1321: F chooses by x, G by z, H is the parity, I differs from y where x or not z. */
  lemma BitsOfFun(round: nat, x: Word, y: Word, z: Word, k: nat)
    requires k < 32
    ensures Bit(Fun(round, x, y, z), k) ==
      match round
      case 0 => if Bit(x, k) == 1 then Bit(y, k) else Bit(z, k)
      case 1 => if Bit(z, k) == 1 then Bit(x, k) else Bit(y, k)
      case 2 => (Bit(x, k) + Bit(y, k) + Bit(z, k)) % 2
      case _ => if Bit(x, k) == 1 || Bit(z, k) == 0 then 1 - Bit(y, k) else Bit(y, k)
  {
    BitsOfWords(x, y, k);
    BitsOfWords(z, z, k);
    match round
    case 0 =>
      BitOfAnd(Not(x), z, k);
      BitOfOr(And(x, y), And(Not(x), z), k);
    case 1 =>
      BitOfAnd(x, z, k);
      BitOfAnd(y, Not(z), k);
      BitOfOr(And(x, z), And(y, Not(z)), k);
    case 2 =>
      BitOfXor(Xor(x, y), z, k);
    case _ =>
      BitOfOr(x, Not(z), k);
      BitOfXor(y, Or(x, Not(z)), k);
  }

  // ----- rotation

  lemma {:induction false} BitBelow(x: nat, b: nat, n: nat, k: nat)
    requires k < n
    ensures Bit(x + b * Pow2(n), k) == Bit(x, k)
    decreases k
  {
    var y, d := x + b * Pow2(n), b * Pow2(n - 1);
    assert b * (2 * Pow2(n - 1)) == 2 * d;
    assert y % 2 == x % 2 && y / 2 == x / 2 + d;
    NextBit(y, if k == 0 then 0 else k - 1);
    NextBit(x, if k == 0 then 0 else k - 1);
    if k > 0 {
      BitBelow(x / 2, b, n - 1, k - 1);
    }
  }

  /** With b above the n lower bits u, moving all up by one and b to the lowest place. */
  lemma BitsMoved(u: nat, b: nat, n: nat, k: nat)
    requires u < Pow2(n) && b < 2 && k <= n
    ensures Bit(2 * u + b, if k == n then 0 else k + 1) == Bit(u + b * Pow2(n), k)
  {
    NextBit(2 * u + b, k);
    if k < n {
      BitBelow(u, b, n, k);
    } else {
      QuotientIs(u + b * Pow2(n), Pow2(n), b, u);
    }
  }

  lemma BitsOfOnce(a: Word, n: nat, k: nat)
    requires k <= n && Pow2(n) == 0x8000_0000
    ensures RotateOnce(a) < WORD && Bit(RotateOnce(a), if k == n then 0 else k + 1) == Bit(a, k)
  {
    OnceMore(a, a / 0x8000_0000, a % 0x8000_0000);
    BitsMoved(a % 0x8000_0000, a / 0x8000_0000, n, k);
  }

  lemma NextPlace(k: nat, s: nat)
    requires 0 < s
    ensures (k + s) % 32 == if (k + s - 1) % 32 == 31 then 0 else (k + s - 1) % 32 + 1
  {
  }

  /** Rotation by s moves each bit s places up, and around. */
  lemma {:induction false} BitsOfRotate(a: Word, s: nat, k: nat)
    requires k < 32
    ensures Rotate(a, s) < WORD && Bit(Rotate(a, s), (k + s) % 32) == Bit(a, k)
    decreases s
  {
    if s > 0 {
      BitsOfRotate(a, s - 1, k);
      PowWord();
      NextPlace(k, s);
      BitsOfOnce(Rotate(a, s - 1), 31, (k + s - 1) % 32);
    }
  }
}
