/** The unrolled steps of one block, for any operation that a step may be; and the loop they stand for. */
module Md5Rounds {

  datatype Registers<W> = Registers(a: W, b: W, c: W, d: W)

  /**
   step: what a step makes of round, registers, word of the block, amount of rotation and constant;
   add: how the registers of a block are added to those before it.
   */
  datatype Ops<!W> = Ops(step: (nat, W, W, W, W, W, nat, nat) -> W, add: (W, W) -> W)

  // ----- section 3.4 of RFC 1321 as a loop

  /** Which word of the block step j of a round takes. */
  function Index(round: nat, j: nat): (k: nat)
    ensures k < 16
  {
    match round
    case 0 => j % 16
    case 1 => (5 * j + 1) % 16
    case 2 => (3 * j + 5) % 16
    case _ => 7 * j % 16
  }

  function Amount(round: nat, j: nat): nat {
    match round
    case 0 => (match j % 4 case 0 => 7 case 1 => 12 case 2 => 17 case _ => 22)
    case 1 => (match j % 4 case 0 => 5 case 1 => 9 case 2 => 14 case _ => 20)
    case 2 => (match j % 4 case 0 => 4 case 1 => 11 case 2 => 16 case _ => 23)
    case _ => (match j % 4 case 0 => 6 case 1 => 10 case 2 => 15 case _ => 21)
  }

  /** The integer part of 2^32 times |sin(16 * round + j + 1)|. */
  function T(round: nat, j: nat): nat {
    match round
    case 0 => T0(j)
    case 1 => T1(j)
    case 2 => T2(j)
    case _ => T3(j)
  }

  function T0(j: nat): nat {
    match j
    case 0 => 0xd76a_a478 case 1 => 0xe8c7_b756 case 2 => 0x2420_70db case 3 => 0xc1bd_ceee
    case 4 => 0xf57c_0faf case 5 => 0x4787_c62a case 6 => 0xa830_4613 case 7 => 0xfd46_9501
    case 8 => 0x6980_98d8 case 9 => 0x8b44_f7af case 10 => 0xffff_5bb1 case 11 => 0x895c_d7be
    case 12 => 0x6b90_1122 case 13 => 0xfd98_7193 case 14 => 0xa679_438e case _ => 0x49b4_0821
  }

  function T1(j: nat): nat {
    match j
    case 0 => 0xf61e_2562 case 1 => 0xc040_b340 case 2 => 0x265e_5a51 case 3 => 0xe9b6_c7aa
    case 4 => 0xd62f_105d case 5 => 0x0244_1453 case 6 => 0xd8a1_e681 case 7 => 0xe7d3_fbc8
    case 8 => 0x21e1_cde6 case 9 => 0xc337_07d6 case 10 => 0xf4d5_0d87 case 11 => 0x455a_14ed
    case 12 => 0xa9e3_e905 case 13 => 0xfcef_a3f8 case 14 => 0x676f_02d9 case _ => 0x8d2a_4c8a
  }

  function T2(j: nat): nat {
    match j
    case 0 => 0xfffa_3942 case 1 => 0x8771_f681 case 2 => 0x6d9d_6122 case 3 => 0xfde5_380c
    case 4 => 0xa4be_ea44 case 5 => 0x4bde_cfa9 case 6 => 0xf6bb_4b60 case 7 => 0xbebf_bc70
    case 8 => 0x289b_7ec6 case 9 => 0xeaa1_27fa case 10 => 0xd4ef_3085 case 11 => 0x0488_1d05
    case 12 => 0xd9d4_d039 case 13 => 0xe6db_99e5 case 14 => 0x1fa2_7cf8 case _ => 0xc4ac_5665
  }

  function T3(j: nat): nat {
    match j
    case 0 => 0xf429_2244 case 1 => 0x432a_ff97 case 2 => 0xab94_23a7 case 3 => 0xfc93_a039
    case 4 => 0x655b_59c3 case 5 => 0x8f0c_cc92 case 6 => 0xffef_f47d case 7 => 0x8584_5dd1
    case 8 => 0x6fa8_7e4f case 9 => 0xfe2c_e6e0 case 10 => 0xa301_4314 case 11 => 0x4e08_11a1
    case 12 => 0xf753_7e82 case 13 => 0xbd3a_f235 case 14 => 0x2ad7_d2bb case _ => 0xeb86_d391
  }

  /** Step j of a round; the registers change places, so that the next step again sets the first one. */
  function Step<W>(op: Ops<W>, x: seq<W>, r: Registers<W>, round: nat, j: nat): Registers<W>
    requires |x| == 16
  {
    Registers(r.d, op.step(round, r.a, r.b, r.c, r.d, x[Index(round, j)], Amount(round, j), T(round, j)), r.b, r.c)
  }

  /** The last n steps of a round; a round has as many as the block has words. */
  function Steps<W>(op: Ops<W>, x: seq<W>, r: Registers<W>, round: nat, n: nat): Registers<W>
    requires |x| == 16 && n <= 16
    decreases n
  {
    if n == 0 then r else Steps(op, x, Step(op, x, r, round, 16 - n), round, n - 1)
  }

  function Rounds<W>(op: Ops<W>, x: seq<W>, r: Registers<W>): Registers<W>
    requires |x| == 16
  {
    var n := |x|;
    Steps(op, x, Steps(op, x, Steps(op, x, Steps(op, x, r, 0, n), 1, n), 2, n), 3, n)
  }

  /** A block: the four rounds, and the sum with the registers as they were. */
  function Compress<W>(op: Ops<W>, x: seq<W>, r: Registers<W>): Registers<W>
    requires |x| == 16
  {
    var s := Rounds(op, x, r);
    Registers(op.add(s.a, r.a), op.add(s.b, r.b), op.add(s.c, r.c), op.add(s.d, r.d))
  }

  /** What step j of a round makes of the registers a, b, c and d. */
  function StepOf<W>(op: Ops<W>, x: seq<W>, round: nat, j: nat, a: W, b: W, c: W, d: W): W
    requires |x| == 16
  {
    op.step(round, a, b, c, d, x[Index(round, j)], Amount(round, j), T(round, j))
  }

  /** From r to r' four steps were made, each of which sets the next register. */
  lemma FourSteps<W>(op: Ops<W>, x: seq<W>, r: Registers<W>, r': Registers<W>, round: nat, j: nat)
    requires |x| == 16 && j + 4 <= 16
    requires r'.a == StepOf(op, x, round, j, r.a, r.b, r.c, r.d)
    requires r'.d == StepOf(op, x, round, j + 1, r.d, r'.a, r.b, r.c)
    requires r'.c == StepOf(op, x, round, j + 2, r.c, r'.d, r'.a, r.b)
    requires r'.b == StepOf(op, x, round, j + 3, r.b, r'.c, r'.d, r'.a)
    ensures Steps(op, x, r, round, 16 - j) == Steps(op, x, r', round, 12 - j)
  {
    var s := Step(op, x, Step(op, x, r, round, j), round, j + 1);
    assert Steps(op, x, r, round, 16 - j) == Steps(op, x, s, round, 14 - j);
    assert Steps(op, x, s, round, 14 - j) == Steps(op, x, r', round, 12 - j);
  }

  ghost predicate Agree<W(!new)>(op: Ops<W>, op': Ops<W>) {
    && (forall n: nat, a, b, c, d, w, s: nat, t: nat ::
          0 < s < 32 ==> op.step(n, a, b, c, d, w, s, t) == op'.step(n, a, b, c, d, w, s, t))
    && (forall a, b :: op.add(a, b) == op'.add(a, b))
  }

  /** Operations that agree make the same steps. */
  lemma {:induction false} StepsAgree<W(!new)>(op: Ops<W>, op': Ops<W>, x: seq<W>, r: Registers<W>, round: nat, n: nat)
    requires |x| == 16 && n <= 16 && Agree(op, op')
    ensures Steps(op, x, r, round, n) == Steps(op', x, r, round, n)
    decreases n
  {
    if n > 0 {
      assert Step(op, x, r, round, 16 - n) == Step(op', x, r, round, 16 - n);
      StepsAgree(op, op', x, Step(op, x, r, round, 16 - n), round, n - 1);
    }
  }

  lemma CompressAgrees<W(!new)>(op: Ops<W>, op': Ops<W>, x: seq<W>, r: Registers<W>)
    requires |x| == 16 && Agree(op, op')
    ensures Compress(op, x, r) == Compress(op', x, r)
  {
    var n := |x|;
    var r1 := Steps(op', x, r, 0, n);
    var r2 := Steps(op', x, r1, 1, n);
    var r3 := Steps(op', x, r2, 2, n);
    StepsAgree(op, op', x, r, 0, n);
    StepsAgree(op, op', x, r1, 1, n);
    StepsAgree(op, op', x, r2, 2, n);
    StepsAgree(op, op', x, r3, 3, n);
  }

  // ----- the unrolled program

  /** A constant as the program writes it, as a 32-bit word. */
  function Unsigned(t: int): nat
    requires -0x8000_0000 <= t < 0x8000_0000
  {
    if t < 0 then t + 0x1_0000_0000 else t
  }

  method Round1<W>(op: Ops<W>, x: seq<W>, a: W, b: W, c: W, d: W) returns (o: W, n: W, m: W, l: W)
    requires |x| == 16
    ensures Registers(o, n, m, l) == Steps(op, x, Registers(a, b, c, d), 0, |x|)
  {
    o, n, m, l := a, b, c, d;
    ghost var r := Registers(o, n, m, l);
    o := op.step(0, o, n, m, l, x[0], 7, Unsigned(-680876936));
    l := op.step(0, l, o, n, m, x[1], 12, Unsigned(-389564586));
    m := op.step(0, m, l, o, n, x[2], 17, Unsigned(606105819));
    n := op.step(0, n, m, l, o, x[3], 22, Unsigned(-1044525330));
    FourSteps(op, x, r, Registers(o, n, m, l), 0, 0);
    r := Registers(o, n, m, l);
    o := op.step(0, o, n, m, l, x[4], 7, Unsigned(-176418897));
    l := op.step(0, l, o, n, m, x[5], 12, Unsigned(1200080426));
    m := op.step(0, m, l, o, n, x[6], 17, Unsigned(-1473231341));
    n := op.step(0, n, m, l, o, x[7], 22, Unsigned(-45705983));
    FourSteps(op, x, r, Registers(o, n, m, l), 0, 4);
    r := Registers(o, n, m, l);
    o := op.step(0, o, n, m, l, x[8], 7, Unsigned(1770035416));
    l := op.step(0, l, o, n, m, x[9], 12, Unsigned(-1958414417));
    m := op.step(0, m, l, o, n, x[10], 17, Unsigned(-42063));
    n := op.step(0, n, m, l, o, x[11], 22, Unsigned(-1990404162));
    FourSteps(op, x, r, Registers(o, n, m, l), 0, 8);
    r := Registers(o, n, m, l);
    o := op.step(0, o, n, m, l, x[12], 7, Unsigned(1804603682));
    l := op.step(0, l, o, n, m, x[13], 12, Unsigned(-40341101));
    m := op.step(0, m, l, o, n, x[14], 17, Unsigned(-1502002290));
    n := op.step(0, n, m, l, o, x[15], 22, Unsigned(1236535329));
    FourSteps(op, x, r, Registers(o, n, m, l), 0, 12);
  }

  /** The words of the block in the order of the second round. */
  lemma SecondOrder()
    ensures Index(1, 0) == 1 && Index(1, 1) == 6 && Index(1, 2) == 11 && Index(1, 3) == 0
    ensures Index(1, 4) == 5 && Index(1, 5) == 10 && Index(1, 6) == 15 && Index(1, 7) == 4
    ensures Index(1, 8) == 9 && Index(1, 9) == 14 && Index(1, 10) == 3 && Index(1, 11) == 8
    ensures Index(1, 12) == 13 && Index(1, 13) == 2 && Index(1, 14) == 7 && Index(1, 15) == 12
  {
  }

  method Round2<W>(op: Ops<W>, x: seq<W>, a: W, b: W, c: W, d: W) returns (o: W, n: W, m: W, l: W)
    requires |x| == 16
    ensures Registers(o, n, m, l) == Steps(op, x, Registers(a, b, c, d), 1, |x|)
  {
    SecondOrder();
    o, n, m, l := a, b, c, d;
    ghost var r := Registers(o, n, m, l);
    o := op.step(1, o, n, m, l, x[1], 5, Unsigned(-165796510));
    l := op.step(1, l, o, n, m, x[6], 9, Unsigned(-1069501632));
    m := op.step(1, m, l, o, n, x[11], 14, Unsigned(643717713));
    n := op.step(1, n, m, l, o, x[0], 20, Unsigned(-373897302));
    FourSteps(op, x, r, Registers(o, n, m, l), 1, 0);
    r := Registers(o, n, m, l);
    o := op.step(1, o, n, m, l, x[5], 5, Unsigned(-701558691));
    l := op.step(1, l, o, n, m, x[10], 9, Unsigned(38016083));
    m := op.step(1, m, l, o, n, x[15], 14, Unsigned(-660478335));
    n := op.step(1, n, m, l, o, x[4], 20, Unsigned(-405537848));
    FourSteps(op, x, r, Registers(o, n, m, l), 1, 4);
    r := Registers(o, n, m, l);
    o := op.step(1, o, n, m, l, x[9], 5, Unsigned(568446438));
    l := op.step(1, l, o, n, m, x[14], 9, Unsigned(-1019803690));
    m := op.step(1, m, l, o, n, x[3], 14, Unsigned(-187363961));
    n := op.step(1, n, m, l, o, x[8], 20, Unsigned(1163531501));
    FourSteps(op, x, r, Registers(o, n, m, l), 1, 8);
    r := Registers(o, n, m, l);
    o := op.step(1, o, n, m, l, x[13], 5, Unsigned(-1444681467));
    l := op.step(1, l, o, n, m, x[2], 9, Unsigned(-51403784));
    m := op.step(1, m, l, o, n, x[7], 14, Unsigned(1735328473));
    n := op.step(1, n, m, l, o, x[12], 20, Unsigned(-1926607734));
    FourSteps(op, x, r, Registers(o, n, m, l), 1, 12);
  }

  /** The words of the block in the order of the third round. */
  lemma ThirdOrder()
    ensures Index(2, 0) == 5 && Index(2, 1) == 8 && Index(2, 2) == 11 && Index(2, 3) == 14
    ensures Index(2, 4) == 1 && Index(2, 5) == 4 && Index(2, 6) == 7 && Index(2, 7) == 10
    ensures Index(2, 8) == 13 && Index(2, 9) == 0 && Index(2, 10) == 3 && Index(2, 11) == 6
    ensures Index(2, 12) == 9 && Index(2, 13) == 12 && Index(2, 14) == 15 && Index(2, 15) == 2
  {
  }

  method Round3<W>(op: Ops<W>, x: seq<W>, a: W, b: W, c: W, d: W) returns (o: W, n: W, m: W, l: W)
    requires |x| == 16
    ensures Registers(o, n, m, l) == Steps(op, x, Registers(a, b, c, d), 2, |x|)
  {
    ThirdOrder();
    o, n, m, l := a, b, c, d;
    ghost var r := Registers(o, n, m, l);
    o := op.step(2, o, n, m, l, x[5], 4, Unsigned(-378558));
    l := op.step(2, l, o, n, m, x[8], 11, Unsigned(-2022574463));
    m := op.step(2, m, l, o, n, x[11], 16, Unsigned(1839030562));
    n := op.step(2, n, m, l, o, x[14], 23, Unsigned(-35309556));
    FourSteps(op, x, r, Registers(o, n, m, l), 2, 0);
    r := Registers(o, n, m, l);
    o := op.step(2, o, n, m, l, x[1], 4, Unsigned(-1530992060));
    l := op.step(2, l, o, n, m, x[4], 11, Unsigned(1272893353));
    m := op.step(2, m, l, o, n, x[7], 16, Unsigned(-155497632));
    n := op.step(2, n, m, l, o, x[10], 23, Unsigned(-1094730640));
    FourSteps(op, x, r, Registers(o, n, m, l), 2, 4);
    r := Registers(o, n, m, l);
    o := op.step(2, o, n, m, l, x[13], 4, Unsigned(681279174));
    l := op.step(2, l, o, n, m, x[0], 11, Unsigned(-358537222));
    m := op.step(2, m, l, o, n, x[3], 16, Unsigned(-722521979));
    n := op.step(2, n, m, l, o, x[6], 23, Unsigned(76029189));
    FourSteps(op, x, r, Registers(o, n, m, l), 2, 8);
    r := Registers(o, n, m, l);
    o := op.step(2, o, n, m, l, x[9], 4, Unsigned(-640364487));
    l := op.step(2, l, o, n, m, x[12], 11, Unsigned(-421815835));
    m := op.step(2, m, l, o, n, x[15], 16, Unsigned(530742520));
    n := op.step(2, n, m, l, o, x[2], 23, Unsigned(-995338651));
    FourSteps(op, x, r, Registers(o, n, m, l), 2, 12);
  }

  /** The words of the block in the order of the last round. */
  lemma LastOrder()
    ensures Index(3, 0) == 0 && Index(3, 1) == 7 && Index(3, 2) == 14 && Index(3, 3) == 5
    ensures Index(3, 4) == 12 && Index(3, 5) == 3 && Index(3, 6) == 10 && Index(3, 7) == 1
    ensures Index(3, 8) == 8 && Index(3, 9) == 15 && Index(3, 10) == 6 && Index(3, 11) == 13
    ensures Index(3, 12) == 4 && Index(3, 13) == 11 && Index(3, 14) == 2 && Index(3, 15) == 9
  {
  }

  method Round4<W>(op: Ops<W>, x: seq<W>, a: W, b: W, c: W, d: W) returns (o: W, n: W, m: W, l: W)
    requires |x| == 16
    ensures Registers(o, n, m, l) == Steps(op, x, Registers(a, b, c, d), 3, |x|)
  {
    LastOrder();
    o, n, m, l := a, b, c, d;
    ghost var r := Registers(o, n, m, l);
    o := op.step(3, o, n, m, l, x[0], 6, Unsigned(-198630844));
    l := op.step(3, l, o, n, m, x[7], 10, Unsigned(1126891415));
    m := op.step(3, m, l, o, n, x[14], 15, Unsigned(-1416354905));
    n := op.step(3, n, m, l, o, x[5], 21, Unsigned(-57434055));
    FourSteps(op, x, r, Registers(o, n, m, l), 3, 0);
    r := Registers(o, n, m, l);
    o := op.step(3, o, n, m, l, x[12], 6, Unsigned(1700485571));
    l := op.step(3, l, o, n, m, x[3], 10, Unsigned(-1894986606));
    m := op.step(3, m, l, o, n, x[10], 15, Unsigned(-1051523));
    n := op.step(3, n, m, l, o, x[1], 21, Unsigned(-2054922799));
    FourSteps(op, x, r, Registers(o, n, m, l), 3, 4);
    r := Registers(o, n, m, l);
    o := op.step(3, o, n, m, l, x[8], 6, Unsigned(1873313359));
    l := op.step(3, l, o, n, m, x[15], 10, Unsigned(-30611744));
    m := op.step(3, m, l, o, n, x[6], 15, Unsigned(-1560198380));
    n := op.step(3, n, m, l, o, x[13], 21, Unsigned(1309151649));
    FourSteps(op, x, r, Registers(o, n, m, l), 3, 8);
    r := Registers(o, n, m, l);
    o := op.step(3, o, n, m, l, x[4], 6, Unsigned(-145523070));
    l := op.step(3, l, o, n, m, x[11], 10, Unsigned(-1120210379));
    m := op.step(3, m, l, o, n, x[2], 15, Unsigned(718787259));
    n := op.step(3, n, m, l, o, x[9], 21, Unsigned(-343485551));
    FourSteps(op, x, r, Registers(o, n, m, l), 3, 12);
  }

  /** All 64 steps, in the order of the program. */
  method Unrolled<W>(op: Ops<W>, x: seq<W>, r: Registers<W>) returns (r': Registers<W>)
    requires |x| == 16
    ensures r' == Rounds(op, x, r)
  {
    var o, n, m, l := Round1(op, x, r.a, r.b, r.c, r.d);
    o, n, m, l := Round2(op, x, o, n, m, l);
    o, n, m, l := Round3(op, x, o, n, m, l);
    o, n, m, l := Round4(op, x, o, n, m, l);
    r' := Registers(o, n, m, l);
  }

  /** One turn of the loop over the blocks. */
  method Block<W>(op: Ops<W>, x: seq<W>, r: Registers<W>) returns (r': Registers<W>)
    requires |x| == 16
    ensures r' == Compress(op, x, r)
  {
    var s := Unrolled(op, x, r);
    r' := Registers(op.add(s.a, r.a), op.add(s.b, r.b), op.add(s.c, r.c), op.add(s.d, r.d));
  }
}
