/** The step of MD5: the program's functions, and the operation of section 3.4 of RFC 1321. */
module Md5Block {
  import opened Md5Words
  import opened Md5Rounds

  type Word = x: int | 0 <= x < 0x1_0000_0000

  function Not(x: Word): Word {
    WORD - 1 - x
  }

  // ----- RFC 1321

  function Fun(round: nat, x: Word, y: Word, z: Word): nat {
    match round
    case 0 => Or(And(x, y), And(Not(x), z))
    case 1 => Or(And(x, z), And(y, Not(z)))
    case 2 => Xor(Xor(x, y), z)
    case _ => Xor(y, Or(x, Not(z)))
  }

  /** b + ((a + f(b, c, d) + x + t) <<< s). */
  function Operation(round: nat, a: Word, b: Word, c: Word, d: Word, x: Word, s: nat, t: nat): Word {
    (b + Rotate((a + Fun(round, b, c, d) + x + t) % WORD, s)) % WORD
  }

  function Add(a: Word, d: Word): Word {
    (a + d) % WORD
  }

  const RFC: Ops<Word> := Ops(Operation, Add)

  // ----- the program

  function Cmn(q: nat, a: Word, b: Word, x: Word, s: nat, t: nat): Word
    requires 0 < s < 32
  {
    SafeAdd(BitRol(SafeAdd(SafeAdd(a, q), SafeAdd(x, t)), s), b)
  }

  function Ff(a: Word, b: Word, c: Word, d: Word, x: Word, s: nat, t: nat): Word
    requires 0 < s < 32
  {
    Cmn(Or(And(b, c), And(Not(b), d)), a, b, x, s, t)
  }

  function Gg(a: Word, b: Word, c: Word, d: Word, x: Word, s: nat, t: nat): Word
    requires 0 < s < 32
  {
    Cmn(Or(And(b, d), And(c, Not(d))), a, b, x, s, t)
  }

  function Hh(a: Word, b: Word, c: Word, d: Word, x: Word, s: nat, t: nat): Word
    requires 0 < s < 32
  {
    Cmn(Xor(Xor(b, c), d), a, b, x, s, t)
  }

  function Ii(a: Word, b: Word, c: Word, d: Word, x: Word, s: nat, t: nat): Word
    requires 0 < s < 32
  {
    Cmn(Xor(c, Or(b, Not(d))), a, b, x, s, t)
  }

  function ProgramOp(round: nat, a: Word, b: Word, c: Word, d: Word, x: Word, s: nat, t: nat): Word {
    if !(0 < s < 32) then 0
    else match round
      case 0 => Ff(a, b, c, d, x, s, t)
      case 1 => Gg(a, b, c, d, x, s, t)
      case 2 => Hh(a, b, c, d, x, s, t)
      case _ => Ii(a, b, c, d, x, s, t)
  }

  lemma ModSum(u: int, v: int)
    ensures (u % WORD + v % WORD) % WORD == (u + v) % WORD
  {
  }

  lemma SumOfFour(a: int, q: int, x: int, t: int)
    ensures SafeAdd(SafeAdd(a, q), SafeAdd(x, t)) == (a + q + x + t) % WORD
  {
    ModSum(a + q, x + t);
  }

  lemma CmnIs(q: nat, a: Word, b: Word, x: Word, s: nat, t: nat)
    requires 0 < s < 32
    ensures Cmn(q, a, b, x, s, t) == (b + Rotate((a + q + x + t) % WORD, s)) % WORD
  {
    SumOfFour(a, q, x, t);
  }

  lemma ProgramOpIs(round: nat, a: Word, b: Word, c: Word, d: Word, x: Word, s: nat, t: nat)
    requires 0 < s < 32
    ensures ProgramOp(round, a, b, c, d, x, s, t) == Operation(round, a, b, c, d, x, s, t)
  {
    CmnIs(Fun(round, b, c, d), a, b, x, s, t);
  }

  function ProgramAdd(a: Word, d: Word): Word {
    SafeAdd(a, d)
  }

  const PROGRAM: Ops<Word> := Ops(ProgramOp, ProgramAdd)

  /** The program's steps and sums are those of the RFC. */
  lemma ProgramAgrees()
    ensures Agree<Word>(PROGRAM, RFC)
  {
    forall n: nat, a: Word, b: Word, c: Word, d: Word, w: Word, s: nat, t: nat | 0 < s < 32
      ensures PROGRAM.step(n, a, b, c, d, w, s, t) == RFC.step(n, a, b, c, d, w, s, t)
    {
      ProgramOpIs(n, a, b, c, d, w, s, t);
    }
  }
}
