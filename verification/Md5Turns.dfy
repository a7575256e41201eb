/** The steps of MD5 on given words, here on the block of the message "abc", checked by operators of bit vectors. */
module Md5Turns {
  import opened Arithmetic
  import opened Common
  import opened Md5Words
  import opened Md5Rounds
  import opened Md5Block
  import opened Md5Bytes

  /** The block of the padded message: the bytes of "abc", the one bit, and the length of 24 bits. */
  function WordOfAbc(i: nat): Word {
    if i == 0 then 0x8063_6261 else if i == 14 then 24 else 0
  }

  ghost predicate AbcBlock(x: seq<Word>) {
    |x| == 16 && forall i: nat :: i < 16 ==> x[i] == WordOfAbc(i)
  }

  /** 2 to the amount by which step j rotates, and 2 to the rest of a word. */
  function Up(round: nat, j: nat): nat {
    match round
    case 0 => (match j % 4 case 0 => 0x80 case 1 => 0x1000 case 2 => 0x2_0000 case _ => 0x40_0000)
    case 1 => (match j % 4 case 0 => 0x20 case 1 => 0x200 case 2 => 0x4000 case _ => 0x10_0000)
    case 2 => (match j % 4 case 0 => 0x10 case 1 => 0x800 case 2 => 0x1_0000 case _ => 0x80_0000)
    case _ => (match j % 4 case 0 => 0x40 case 1 => 0x400 case 2 => 0x8000 case _ => 0x20_0000)
  }

  function Down(round: nat, j: nat): nat {
    match round
    case 0 => (match j % 4 case 0 => 0x200_0000 case 1 => 0x10_0000 case 2 => 0x8000 case _ => 0x400)
    case 1 => (match j % 4 case 0 => 0x800_0000 case 1 => 0x80_0000 case 2 => 0x4_0000 case _ => 0x1000)
    case 2 => (match j % 4 case 0 => 0x1000_0000 case 1 => 0x20_0000 case 2 => 0x1_0000 case _ => 0x200)
    case _ => (match j % 4 case 0 => 0x400_0000 case 1 => 0x40_0000 case 2 => 0x2_0000 case _ => 0x800)
  }

  lemma Powers()
    ensures Pow2(4) == 0x10 && Pow2(5) == 0x20 && Pow2(6) == 0x40 && Pow2(7) == 0x80
    ensures Pow2(9) == 0x200 && Pow2(10) == 0x400 && Pow2(11) == 0x800 && Pow2(12) == 0x1000
    ensures Pow2(14) == 0x4000 && Pow2(15) == 0x8000 && Pow2(16) == 0x1_0000 && Pow2(17) == 0x2_0000
    ensures Pow2(18) == 0x4_0000 && Pow2(20) == 0x10_0000 && Pow2(21) == 0x20_0000 && Pow2(22) == 0x40_0000
    ensures Pow2(23) == 0x80_0000 && Pow2(25) == 0x200_0000 && Pow2(26) == 0x400_0000
    ensures Pow2(27) == 0x800_0000 && Pow2(28) == 0x1000_0000
  {
  }

  lemma UpIs(round: nat, j: nat)
    ensures Up(round, j) == Pow2(Amount(round, j)) && Down(round, j) == Pow2(32 - Amount(round, j))
    ensures 0 < Amount(round, j) < 32
  {
    Powers();
  }

  /** With h the upper bits and l the lower ones, they change places. */
  lemma Exchanged(u: nat, h: nat, l: nat, s: nat, k: nat)
    requires s + k == 32 && h < Pow2(s) && l < Pow2(k) && u == h * Pow2(k) + l
    ensures Rotate(u, s) == l * Pow2(s) + h
  {
    ShlIsProduct(h, k);
    ShlIsProduct(l, s);
    RotateExchanges(u, h, l, s, k);
  }

  lemma Around(s: int, u: int)
    requires 0 <= u < WORD
    requires s == u || s == u + WORD || s == u + 2 * WORD || s == u + 3 * WORD
    ensures s % WORD == u
  {
  }

  lemma OperationIs(round: nat, a: Word, b: Word, c: Word, d: Word, w: Word, s: nat, t: nat, u: nat, v: nat, n: Word)
    requires (a + Fun(round, b, c, d) + w + t) % WORD == u && Rotate(u, s) == v && (b + v) % WORD == n
    ensures Operation(round, a, b, c, d, w, s, t) == n
  {
  }

  /** The two sums up to multiples of 2^32. */
  ghost predicate Adds(s: int, u: int, v: int, n: int) {
    && (s == u || s == u + 0x1_0000_0000 || s == u + 0x2_0000_0000 || s == u + 0x3_0000_0000)
    && (v == n || v == n + 0x1_0000_0000)
  }

  function Int(w: bv32): int {
    w as int
  }

  /** A word as an integer is the number of its bytes. */
  ghost predicate Whole(w: bv32) {
    w as int == ((w & 0xff) as int) + 256 * (((w >> 8) & 0xff) as int)
                + 65536 * (((w >> 16) & 0xff) as int) + 16777216 * (((w >> 24) & 0xff) as int)
  }

  lemma ShiftTwice(w: bv32)
    ensures Next(Next(w)) & 0xff == (w >> 16) & 0xff && Next(Next(Next(w))) & 0xff == (w >> 24) & 0xff
  {
  }

  lemma LowIs(w: bv32, v: bv32)
    requires w & 0xff == v
    ensures Low(w) == v as int
  {
  }

  lemma NumberIsSum(f: bv32 -> Byte, next: bv32 -> bv32, w: bv32, p0: int, p1: int, p2: int, p3: int)
    requires f(w) == p0 && f(next(w)) == p1 && f(next(next(w))) == p2 && f(next(next(next(w)))) == p3
    ensures NumberBy(f, next, w) == p0 + 256 * p1 + 65536 * p2 + 16777216 * p3
  {
  }

  lemma WholeIsNumber(w: bv32)
    requires Whole(w)
    ensures Int(w) == Number(w)
  {
    ShiftTwice(w);
    LowIs(w, w & 0xff);
    LowIs(Next(w), (w >> 8) & 0xff);
    LowIs(Next(Next(w)), (w >> 16) & 0xff);
    LowIs(Next(Next(Next(w))), (w >> 24) & 0xff);
    NumberIsSum(Low, Next, w, (w & 0xff) as int, ((w >> 8) & 0xff) as int, ((w >> 16) & 0xff) as int,
                ((w >> 24) & 0xff) as int);
  }

  lemma TurnBy(round: nat, a: Word, b: Word, c: Word, d: Word, w: Word, t: nat, f: Word, h: nat, l: nat,
               s: nat, k: nat, n: Word)
    requires f == Fun(round, b, c, d) && s + k == 32 && h < Pow2(s) && l < Pow2(k)
    requires Adds(a + f + w + t, h * Pow2(k) + l, b + l * Pow2(s) + h, n)
    ensures Operation(round, a, b, c, d, w, s, t) == n
  {
    var u, v := h * Pow2(k) + l, l * Pow2(s) + h;
    Exchanged(u, h, l, s, k);
    InWord(h, l, s, k);
    Around(a + f + w + t, u);
    Around(b + v, n);
    OperationIs(round, a, b, c, d, w, s, t, u, v, n);
  }

  lemma InWord(h: nat, l: nat, s: nat, k: nat)
    requires s + k == 32 && h < Pow2(s) && l < Pow2(k)
    ensures h * Pow2(k) + l < WORD
  {
    ShlIsProduct(h, k);
    ShlBound(h, s, k);
    PowWord();
  }

  ghost predicate AddsBy(i: bv32 -> int, round: nat, j: nat, a: bv32, b: bv32, f: bv32, h: nat, l: nat, n: bv32) {
    Adds(i(a) + i(f) + WordOfAbc(Index(round, j)) + T(round, j), h * Down(round, j) + l,
         i(b) + l * Up(round, j) + h, i(n))
  }

  /** The step on numbers, with i the integers of words and g the numbers of their bytes. */
  lemma TurnOnNumbers(i: bv32 -> int, g: bv32 -> Word, x: seq<Word>, round: nat, j: nat,
                      a: bv32, b: bv32, c: bv32, d: bv32, f: bv32, h: nat, l: nat, n: bv32)
    requires AbcBlock(x) && j < 16 && h < Up(round, j) && l < Down(round, j)
    requires i(a) == g(a) && i(b) == g(b) && i(f) == g(f) && i(n) == g(n) && Fun(round, g(b), g(c), g(d)) == g(f)
    requires AddsBy(i, round, j, a, b, f, h, l, n)
    ensures StepOf(RFC, x, round, j, g(a), g(b), g(c), g(d)) == g(n)
  {
    UpIs(round, j);
    var s, w, t := Amount(round, j), x[Index(round, j)], T(round, j);
    TurnBy(round, g(a), g(b), g(c), g(d), w, t, g(f), h, l, s, 32 - s, g(n));
  }

  lemma FirstIs(x: bv32, y: bv32, z: bv32)
    ensures FunBits(0, x, y, z) == (x & y) | (!x & z)
  {
  }

  lemma SecondIs(x: bv32, y: bv32, z: bv32)
    ensures FunBits(1, x, y, z) == (x & z) | (y & !z)
  {
  }

  lemma LastIs(round: nat, x: bv32, y: bv32, z: bv32)
    requires round > 2
    ensures FunBits(round, x, y, z) == y ^ (x | !z)
  {
  }

  /** f is the function of the round. */
  ghost predicate IsFun(round: nat, x: bv32, y: bv32, z: bv32, f: bv32) {
    f == if round == 0 then (x & y) | (!x & z)
         else if round == 1 then (x & z) | (y & !z)
         else if round == 2 then x ^ y ^ z
         else y ^ (x | !z)
  }

  lemma FunIs(round: nat, x: bv32, y: bv32, z: bv32, f: bv32)
    requires IsFun(round, x, y, z, f)
    ensures f == FunBits(round, x, y, z)
  {
    match round
    case 0 => FirstIs(x, y, z);
    case 1 => SecondIs(x, y, z);
    case 2 =>
    case _ => LastIs(round, x, y, z);
  }

  lemma FunOnNumbers(round: nat, x: bv32, y: bv32, z: bv32, f: bv32)
    requires IsFun(round, x, y, z, f)
    ensures Fun(round, Number(x), Number(y), Number(z)) == Number(f)
  {
    FunIs(round, x, y, z, f);
    FunOnWords(round, x, y, z);
  }

  ghost predicate Standard(op: Ops<Word>) {
    op == RFC
  }

  /** Step j makes n of a, for words that are ok, with g their numbers. */
  ghost predicate OneTurn(ok: bv32 -> bool, g: bv32 -> Word, x: seq<Word>, round: nat, j: nat,
                          a: bv32, b: bv32, c: bv32, d: bv32, n: bv32)
    requires |x| == 16
  {
    forall op :: Standard(op) && ok(a) && ok(b) ==>
      ok(n) && StepOf(op, x, round, j, g(a), g(b), g(c), g(d)) == g(n)
  }

  /** Step j + 1 goes on with m of d. */
  ghost predicate TwoTurnsBy(ok: bv32 -> bool, g: bv32 -> Word, x: seq<Word>, round: nat, j: nat,
                             a: bv32, b: bv32, c: bv32, d: bv32, n: bv32, m: bv32)
    requires |x| == 16
  {
    OneTurn(ok, g, x, round, j, a, b, c, d, n) && OneTurn(ok, g, x, round, j + 1, d, n, b, c, m)
  }

  ghost predicate TwoTurns(x: seq<Word>, round: nat, j: nat, a: bv32, b: bv32, c: bv32, d: bv32, n: bv32, m: bv32)
    requires |x| == 16
  {
    TwoTurnsBy(Whole, Number, x, round, j, a, b, c, d, n, m)
  }

  /**
   Where f is the function of the round and h the upper, l the lower bits of the sum that is rotated, the step
   sets the register to n.
   */
  lemma Turn(x: seq<Word>, round: nat, j: nat, a: bv32, b: bv32, c: bv32, d: bv32, f: bv32, h: nat, l: nat, n: bv32)
    requires AbcBlock(x) && j < 16 && Whole(f) && Whole(n)
    requires IsFun(round, b, c, d, f) && h < Up(round, j) && l < Down(round, j)
    requires AddsBy(Int, round, j, a, b, f, h, l, n)
    ensures OneTurn(Whole, Number, x, round, j, a, b, c, d, n)
  {
    if Whole(a) && Whole(b) {
      WholeIsNumber(a);
      WholeIsNumber(b);
      WholeIsNumber(f);
      WholeIsNumber(n);
      FunOnNumbers(round, b, c, d, f);
      TurnOnNumbers(Int, Number, x, round, j, a, b, c, d, f, h, l, n);
    }
  }

  function Regs(g: bv32 -> Word, a: bv32, b: bv32, c: bv32, d: bv32): Registers<Word> {
    Registers(g(a), g(b), g(c), g(d))
  }

  /** n steps go from r to r'. */
  ghost predicate Goes<W>(op: Ops<W>, x: seq<W>, round: nat, j: nat, n: nat, r: Registers<W>, r': Registers<W>)
    requires |x| == 16 && j + n <= 16
  {
    Steps(op, x, r, round, |x| - j) == Steps(op, x, r', round, |x| - j - n)
  }

  lemma GoesOn<W>(op: Ops<W>, x: seq<W>, round: nat, j: nat, k: nat, r: Registers<W>, r': Registers<W>,
                  r'': Registers<W>)
    requires |x| == 16 && k == j + 4 && k + 4 <= 16
    requires Goes(op, x, round, j, 4, r, r') && Goes(op, x, round, k, 4, r', r'')
    ensures Goes(op, x, round, j, 8, r, r'')
  {
  }

  /** Two and two steps set all registers. */
  lemma FourTurns(ok: bv32 -> bool, g: bv32 -> Word, x: seq<Word>, round: nat, j: nat, j2: nat,
                  a: bv32, b: bv32, c: bv32, d: bv32, a': bv32, b': bv32, c': bv32, d': bv32)
    requires |x| == 16 && j + 4 <= 16 && ok(a) && ok(b) && ok(c) && ok(d)
    requires TwoTurnsBy(ok, g, x, round, j, a, b, c, d, a', d')
    requires TwoTurnsBy(ok, g, x, round, j2, c, d', a', b, c', b') && j2 == j + 2
    ensures Goes(RFC, x, round, j, 4, Regs(g, a, b, c, d), Regs(g, a', b', c', d'))
    ensures ok(a') && ok(b') && ok(c') && ok(d')
  {
    assert Standard(RFC);
    FourSteps(RFC, x, Regs(g, a, b, c, d), Regs(g, a', b', c', d'), round, j);
  }

  lemma EightTurns(ok: bv32 -> bool, g: bv32 -> Word, x: seq<Word>, round: nat, j: nat, j2: nat, j4: nat, j6: nat,
                   a0: bv32, b0: bv32, c0: bv32, d0: bv32, a1: bv32, b1: bv32, c1: bv32, d1: bv32,
                   a2: bv32, b2: bv32, c2: bv32, d2: bv32)
    requires |x| == 16 && j + 8 <= 16 && j2 == j + 2 && j4 == j + 4 && j6 == j + 6
    requires ok(a0) && ok(b0) && ok(c0) && ok(d0)
    requires TwoTurnsBy(ok, g, x, round, j, a0, b0, c0, d0, a1, d1)
    requires TwoTurnsBy(ok, g, x, round, j2, c0, d1, a1, b0, c1, b1)
    requires TwoTurnsBy(ok, g, x, round, j4, a1, b1, c1, d1, a2, d2)
    requires TwoTurnsBy(ok, g, x, round, j6, c1, d2, a2, b1, c2, b2)
    ensures Goes(RFC, x, round, j, 8, Regs(g, a0, b0, c0, d0), Regs(g, a2, b2, c2, d2))
    ensures ok(a2) && ok(b2) && ok(c2) && ok(d2)
  {
    FourTurns(ok, g, x, round, j, j2, a0, b0, c0, d0, a1, b1, c1, d1);
    FourTurns(ok, g, x, round, j4, j6, a1, b1, c1, d1, a2, b2, c2, d2);
    GoesOn(RFC, x, round, j, j4, Regs(g, a0, b0, c0, d0), Regs(g, a1, b1, c1, d1), Regs(g, a2, b2, c2, d2));
  }

  lemma SixteenSteps<W>(op: Ops<W>, x: seq<W>, round: nat, r: Registers<W>, r': Registers<W>, r'': Registers<W>)
    requires |x| == 16 && Goes(op, x, round, 0, 8, r, r') && Goes(op, x, round, 8, 8, r', r'')
    ensures Steps(op, x, r, round, |x|) == r''
  {
  }
}
