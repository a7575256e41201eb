/** The bitwise functions on integers are the operators of bit vectors of 32 bits, and so are the functions of MD5. */
module Md5Bytes {
  import opened Arithmetic
  import opened Common
  import opened Md5Words
  import opened Md5Block
  import opened Md5Codec

  // ----- bytes

  /** The number of the lowest byte. */
  function Low(w: bv32): Byte {
    (w & 0xff) as int
  }

  function Half(w: bv32): bv32 {
    (w & 0xff) >> 1
  }

  function AndBits(w: bv32, v: bv32): bv32 {
    w & v
  }

  function OrBits(w: bv32, v: bv32): bv32 {
    w | v
  }

  function XorBits(w: bv32, v: bv32): bv32 {
    w ^ v
  }

  lemma Halved(w: bv32)
    ensures Low(Half(w)) == Low(w) / 2 && Low(w & 1) == Low(w) % 2
  {
  }

  /** An operator on bytes goes along with halving. */
  ghost predicate Halving(on: (bv32, bv32) -> bv32, half: bv32 -> bv32, f: bv32 -> Byte, w: bv32, v: bv32) {
    && f(half(w)) == f(w) / 2 && f(half(v)) == f(v) / 2
    && f(on(w, v)) / 2 == f(on(half(w), half(v)))
    && (f(w) == 0 && f(v) == 0 ==> f(on(w, v)) == 0)
  }

  lemma AndOn(x: nat, y: nat, z: nat)
    requires z / 2 == And(x / 2, y / 2) && z % 2 == if x % 2 == 1 && y % 2 == 1 then 1 else 0
    ensures And(x, y) == z
  {
  }

  lemma OrOn(x: nat, y: nat, z: nat)
    requires z / 2 == Or(x / 2, y / 2) && z % 2 == if x % 2 == 1 || y % 2 == 1 then 1 else 0
    ensures Or(x, y) == z
  {
  }

  lemma XorOn(x: nat, y: nat, z: nat)
    requires z / 2 == Xor(x / 2, y / 2) && z % 2 == if x % 2 != y % 2 then 1 else 0
    ensures Xor(x, y) == z
  {
  }

  ghost predicate AndLaw(on: (bv32, bv32) -> bv32, half: bv32 -> bv32, f: bv32 -> Byte, w: bv32, v: bv32) {
    Halving(on, half, f, w, v) && f(on(w, v)) % 2 == if f(w) % 2 == 1 && f(v) % 2 == 1 then 1 else 0
  }

  lemma AndHalves(w: bv32, v: bv32)
    ensures Low(w & v) / 2 == Low(Half(w) & Half(v))
  {
    Halved(w & v);
    assert Half(w & v) & 0xff == (Half(w) & Half(v)) & 0xff;
  }

  lemma AndParity(w: bv32, v: bv32)
    ensures Low(w & v) % 2 == if Low(w) % 2 == 1 && Low(v) % 2 == 1 then 1 else 0
  {
    Halved(w);
    Halved(v);
    Halved(w & v);
    assert (w & v) & 1 == (w & 1) & (v & 1) && (w & 1 == 0 || w & 1 == 1) && (v & 1 == 0 || v & 1 == 1);
  }

  lemma AndZeros(w: bv32, v: bv32)
    requires Low(w) == 0 && Low(v) == 0
    ensures Low(w & v) == 0
  {
    assert w & 0xff == 0 && v & 0xff == 0;
    assert (w & v) & 0xff == (w & 0xff) & (v & 0xff);
  }

  lemma AndLawful(w: bv32, v: bv32)
    ensures AndLaw(AndBits, Half, Low, w, v)
  {
    Halved(w);
    Halved(v);
    AndHalves(w, v);
    AndParity(w, v);
    if Low(w) == 0 && Low(v) == 0 {
      AndZeros(w, v);
    }
  }

  lemma {:induction false} AndOnBytes(on: (bv32, bv32) -> bv32, half: bv32 -> bv32, f: bv32 -> Byte,
                                    w: bv32, v: bv32, n: nat)
    requires (forall u, u' :: AndLaw(on, half, f, u, u')) && f(w) <= n && f(v) <= n
    ensures And(f(w), f(v)) == f(on(w, v))
    decreases n
  {
    assert AndLaw(on, half, f, w, v);
    if n > 0 {
      AndOnBytes(on, half, f, half(w), half(v), n / 2);
      AndOn(f(w), f(v), f(on(w, v)));
    }
  }

  ghost predicate OrLaw(on: (bv32, bv32) -> bv32, half: bv32 -> bv32, f: bv32 -> Byte, w: bv32, v: bv32) {
    Halving(on, half, f, w, v) && f(on(w, v)) % 2 == if f(w) % 2 == 1 || f(v) % 2 == 1 then 1 else 0
  }

  lemma OrHalves(w: bv32, v: bv32)
    ensures Low(w | v) / 2 == Low(Half(w) | Half(v))
  {
    Halved(w | v);
    assert Half(w | v) & 0xff == (Half(w) | Half(v)) & 0xff;
  }

  lemma OrParity(w: bv32, v: bv32)
    ensures Low(w | v) % 2 == if Low(w) % 2 == 1 || Low(v) % 2 == 1 then 1 else 0
  {
    Halved(w);
    Halved(v);
    Halved(w | v);
    assert (w | v) & 1 == (w & 1) | (v & 1) && (w & 1 == 0 || w & 1 == 1) && (v & 1 == 0 || v & 1 == 1);
  }

  lemma OrZeros(w: bv32, v: bv32)
    requires Low(w) == 0 && Low(v) == 0
    ensures Low(w | v) == 0
  {
    assert w & 0xff == 0 && v & 0xff == 0;
    assert (w | v) & 0xff == (w & 0xff) | (v & 0xff);
  }

  lemma OrLawful(w: bv32, v: bv32)
    ensures OrLaw(OrBits, Half, Low, w, v)
  {
    Halved(w);
    Halved(v);
    OrHalves(w, v);
    OrParity(w, v);
    if Low(w) == 0 && Low(v) == 0 {
      OrZeros(w, v);
    }
  }

  lemma {:induction false} OrOnBytes(on: (bv32, bv32) -> bv32, half: bv32 -> bv32, f: bv32 -> Byte,
                                    w: bv32, v: bv32, n: nat)
    requires (forall u, u' :: OrLaw(on, half, f, u, u')) && f(w) <= n && f(v) <= n
    ensures Or(f(w), f(v)) == f(on(w, v))
    decreases n
  {
    assert OrLaw(on, half, f, w, v);
    if n > 0 {
      OrOnBytes(on, half, f, half(w), half(v), n / 2);
      OrOn(f(w), f(v), f(on(w, v)));
    }
  }

  ghost predicate XorLaw(on: (bv32, bv32) -> bv32, half: bv32 -> bv32, f: bv32 -> Byte, w: bv32, v: bv32) {
    Halving(on, half, f, w, v) && f(on(w, v)) % 2 == if f(w) % 2 != f(v) % 2 then 1 else 0
  }

  lemma XorHalves(w: bv32, v: bv32)
    ensures Low(w ^ v) / 2 == Low(Half(w) ^ Half(v))
  {
    Halved(w ^ v);
    assert Half(w ^ v) & 0xff == (Half(w) ^ Half(v)) & 0xff;
  }

  lemma XorParity(w: bv32, v: bv32)
    ensures Low(w ^ v) % 2 == if Low(w) % 2 != Low(v) % 2 then 1 else 0
  {
    Halved(w);
    Halved(v);
    Halved(w ^ v);
    assert (w ^ v) & 1 == (w & 1) ^ (v & 1) && (w & 1 == 0 || w & 1 == 1) && (v & 1 == 0 || v & 1 == 1);
  }

  lemma XorZeros(w: bv32, v: bv32)
    requires Low(w) == 0 && Low(v) == 0
    ensures Low(w ^ v) == 0
  {
    assert w & 0xff == 0 && v & 0xff == 0;
    assert (w ^ v) & 0xff == (w & 0xff) ^ (v & 0xff);
  }

  lemma XorLawful(w: bv32, v: bv32)
    ensures XorLaw(XorBits, Half, Low, w, v)
  {
    Halved(w);
    Halved(v);
    XorHalves(w, v);
    XorParity(w, v);
    if Low(w) == 0 && Low(v) == 0 {
      XorZeros(w, v);
    }
  }

  lemma {:induction false} XorOnBytes(on: (bv32, bv32) -> bv32, half: bv32 -> bv32, f: bv32 -> Byte,
                                    w: bv32, v: bv32, n: nat)
    requires (forall u, u' :: XorLaw(on, half, f, u, u')) && f(w) <= n && f(v) <= n
    ensures Xor(f(w), f(v)) == f(on(w, v))
    decreases n
  {
    assert XorLaw(on, half, f, w, v);
    if n > 0 {
      XorOnBytes(on, half, f, half(w), half(v), n / 2);
      XorOn(f(w), f(v), f(on(w, v)));
    }
  }

  /** On bytes the function is the operator. */
  ghost predicate Works(op: (nat, nat) -> nat, on: (bv32, bv32) -> bv32, f: bv32 -> Byte) {
    forall w, v :: op(f(w), f(v)) == f(on(w, v))
  }

  lemma AndWorks()
    ensures Works(And, AndBits, Low)
  {
    forall w, v
      ensures AndLaw(AndBits, Half, Low, w, v)
    {
      AndLawful(w, v);
    }
    forall w, v
      ensures And(Low(w), Low(v)) == Low(AndBits(w, v))
    {
      AndOnBytes(AndBits, Half, Low, w, v, 255);
    }
  }

  lemma OrWorks()
    ensures Works(Or, OrBits, Low)
  {
    forall w, v
      ensures OrLaw(OrBits, Half, Low, w, v)
    {
      OrLawful(w, v);
    }
    forall w, v
      ensures Or(Low(w), Low(v)) == Low(OrBits(w, v))
    {
      OrOnBytes(OrBits, Half, Low, w, v, 255);
    }
  }

  lemma XorWorks()
    ensures Works(Xor, XorBits, Low)
  {
    forall w, v
      ensures XorLaw(XorBits, Half, Low, w, v)
    {
      XorLawful(w, v);
    }
    forall w, v
      ensures Xor(Low(w), Low(v)) == Low(XorBits(w, v))
    {
      XorOnBytes(XorBits, Half, Low, w, v, 255);
    }
  }

  // ----- words

  /** A function that works on the low byte and the rest apart. */
  ghost predicate SplitsAt(op: (nat, nat) -> nat, x0: Byte, x1: nat, y0: Byte, y1: nat) {
    op(x0 + 256 * x1, y0 + 256 * y1) == op(x0, y0) + 256 * op(x1, y1)
  }

  ghost predicate Splits(op: (nat, nat) -> nat) {
    forall x0: Byte, x1: nat, y0: Byte, y1: nat :: SplitsAt(op, x0, x1, y0, y1)
  }

  lemma AndTails(x: nat, y: nat, x0: Byte, x1: nat, y0: Byte, y1: nat, k: nat)
    requires x == x0 + 256 * x1 && y == y0 + 256 * y1 && k == 8
    ensures And(x, y) == And(x0, y0) + 256 * And(x1, y1)
  {
    PowWord();
    ShlByte(x1);
    ShlByte(y1);
    AndSplits(x, x0, x1, y, y0, y1, k);
    ShlByte(And(x1, y1));
  }

  lemma AndSplitsBytes()
    ensures Splits(And)
  {
    forall x0: Byte, x1: nat, y0: Byte, y1: nat
      ensures SplitsAt(And, x0, x1, y0, y1)
    {
      AndTails(x0 + 256 * x1, y0 + 256 * y1, x0, x1, y0, y1, 8);
    }
  }

  lemma OrTails(x: nat, y: nat, x0: Byte, x1: nat, y0: Byte, y1: nat, k: nat)
    requires x == x0 + 256 * x1 && y == y0 + 256 * y1 && k == 8
    ensures Or(x, y) == Or(x0, y0) + 256 * Or(x1, y1)
  {
    PowWord();
    ShlByte(x1);
    ShlByte(y1);
    OrSplits(x, x0, x1, y, y0, y1, k);
    ShlByte(Or(x1, y1));
  }

  lemma OrSplitsBytes()
    ensures Splits(Or)
  {
    forall x0: Byte, x1: nat, y0: Byte, y1: nat
      ensures SplitsAt(Or, x0, x1, y0, y1)
    {
      OrTails(x0 + 256 * x1, y0 + 256 * y1, x0, x1, y0, y1, 8);
    }
  }

  lemma XorTails(x: nat, y: nat, x0: Byte, x1: nat, y0: Byte, y1: nat, k: nat)
    requires x == x0 + 256 * x1 && y == y0 + 256 * y1 && k == 8
    ensures Xor(x, y) == Xor(x0, y0) + 256 * Xor(x1, y1)
  {
    PowWord();
    ShlByte(x1);
    ShlByte(y1);
    XorSplits(x, x0, x1, y, y0, y1, k);
    ShlByte(Xor(x1, y1));
  }

  lemma XorSplitsBytes()
    ensures Splits(Xor)
  {
    forall x0: Byte, x1: nat, y0: Byte, y1: nat
      ensures SplitsAt(Xor, x0, x1, y0, y1)
    {
      XorTails(x0 + 256 * x1, y0 + 256 * y1, x0, x1, y0, y1, 8);
    }
  }

  /** Such a function on words is what it is on their bytes. */
  lemma ByBytes(op: (nat, nat) -> nat, a: Byte, b: Byte, c: Byte, d: Byte, a': Byte, b': Byte, c': Byte, d': Byte)
    requires Splits(op)
    ensures op(Word4(a, b, c, d), Word4(a', b', c', d')) ==
      op(a, a') + 256 * op(b, b') + 65536 * op(c, c') + 16777216 * op(d, d')
  {
    assert SplitsAt(op, c, d, c', d');
    assert SplitsAt(op, b, c + 256 * d, b', c' + 256 * d');
    assert SplitsAt(op, a, b + 256 * (c + 256 * d), a', b' + 256 * (c' + 256 * d'));
  }

  function Next(w: bv32): bv32 {
    w >> 8
  }

  function NumberBy(f: bv32 -> Byte, next: bv32 -> bv32, w: bv32): Word {
    Word4(f(w), f(next(w)), f(next(next(w))), f(next(next(next(w)))))
  }

  /** The number of a word, by its four bytes. */
  function Number(w: bv32): Word {
    NumberBy(Low, Next, w)
  }

  /** The operator works on all bytes alike. */
  ghost predicate Shifts(on: (bv32, bv32) -> bv32, next: bv32 -> bv32) {
    forall w, v :: next(on(w, v)) == on(next(w), next(v))
  }

  function NumberOf(f: bv32 -> Byte, next: bv32 -> bv32): bv32 -> Word {
    (w: bv32) => NumberBy(f, next, w)
  }

  ghost predicate WorksOn(op: (nat, nat) -> nat, on: (bv32, bv32) -> bv32, g: bv32 -> Word) {
    forall w, v :: op(g(w), g(v)) == g(on(w, v))
  }

  lemma FromBytes(op: (nat, nat) -> nat, a: Byte, b: Byte, c: Byte, d: Byte, a': Byte, b': Byte, c': Byte, d': Byte,
                  r0: Byte, r1: Byte, r2: Byte, r3: Byte)
    requires Splits(op) && op(a, a') == r0 && op(b, b') == r1 && op(c, c') == r2 && op(d, d') == r3
    ensures op(Word4(a, b, c, d), Word4(a', b', c', d')) == Word4(r0, r1, r2, r3)
  {
    ByBytes(op, a, b, c, d, a', b', c', d');
  }

  lemma NextOfAll(on: (bv32, bv32) -> bv32, next: bv32 -> bv32, w: bv32, v: bv32)
    requires Shifts(on, next)
    ensures next(on(w, v)) == on(next(w), next(v))
    ensures next(next(on(w, v))) == on(next(next(w)), next(next(v)))
    ensures next(next(next(on(w, v)))) == on(next(next(next(w))), next(next(next(v))))
  {
    var w1, v1 := next(w), next(v);
    var w2, v2 := next(w1), next(v1);
    assert next(on(w, v)) == on(w1, v1);
    assert next(on(w1, v1)) == on(w2, v2);
    assert next(on(w2, v2)) == on(next(w2), next(v2));
  }

  lemma WorksHere(op: (nat, nat) -> nat, on: (bv32, bv32) -> bv32, f: bv32 -> Byte, w: bv32, v: bv32, u: bv32)
    requires Works(op, on, f) && u == on(w, v)
    ensures op(f(w), f(v)) == f(u)
  {
  }

  lemma OfPair(op: (nat, nat) -> nat, on: (bv32, bv32) -> bv32, f: bv32 -> Byte, next: bv32 -> bv32, w: bv32, v: bv32)
    requires Splits(op) && Works(op, on, f) && Shifts(on, next)
    ensures op(NumberBy(f, next, w), NumberBy(f, next, v)) == NumberBy(f, next, on(w, v))
  {
    var w1, v1, u := next(w), next(v), on(w, v);
    var w2, v2, u1 := next(w1), next(v1), next(u);
    var w3, v3, u2 := next(w2), next(v2), next(u1);
    NextOfAll(on, next, w, v);
    WorksHere(op, on, f, w, v, u);
    WorksHere(op, on, f, w1, v1, u1);
    WorksHere(op, on, f, w2, v2, u2);
    WorksHere(op, on, f, w3, v3, next(u2));
    FromBytes(op, f(w), f(w1), f(w2), f(w3), f(v), f(v1), f(v2), f(v3), f(u), f(u1), f(u2), f(next(u2)));
  }

  lemma OfWords(op: (nat, nat) -> nat, on: (bv32, bv32) -> bv32, f: bv32 -> Byte, next: bv32 -> bv32)
    requires Splits(op) && Works(op, on, f) && Shifts(on, next)
    ensures WorksOn(op, on, NumberOf(f, next))
  {
    var g := NumberOf(f, next);
    forall w, v
      ensures op(g(w), g(v)) == g(on(w, v))
    {
      OfPair(op, on, f, next, w, v);
    }
  }

  lemma AndShifts()
    ensures Shifts(AndBits, Next)
  {
  }

  lemma OrShifts()
    ensures Shifts(OrBits, Next)
  {
  }

  lemma XorShifts()
    ensures Shifts(XorBits, Next)
  {
  }

  lemma OnWords()
    ensures WorksOn(And, AndBits, NumberOf(Low, Next)) && WorksOn(Or, OrBits, NumberOf(Low, Next))
    ensures WorksOn(Xor, XorBits, NumberOf(Low, Next))
  {
    AndSplitsBytes();
    AndWorks();
    AndShifts();
    OfWords(And, AndBits, Low, Next);
    OrSplitsBytes();
    OrWorks();
    OrShifts();
    OfWords(Or, OrBits, Low, Next);
    XorSplitsBytes();
    XorWorks();
    XorShifts();
    OfWords(Xor, XorBits, Low, Next);
  }

  function NotBits(w: bv32): bv32 {
    !w
  }

  lemma Complement(w: bv32)
    ensures Low(NotBits(w)) == 255 - Low(w)
  {
  }

  lemma NotShifts(w: bv32)
    ensures Next(NotBits(w)) & 0xff == NotBits(Next(w)) & 0xff
    ensures Next(Next(NotBits(w))) & 0xff == NotBits(Next(Next(w))) & 0xff
    ensures Next(Next(Next(NotBits(w)))) & 0xff == NotBits(Next(Next(Next(w)))) & 0xff
  {
  }

  lemma ComplementOf(u: bv32, w: bv32)
    requires u & 0xff == NotBits(w) & 0xff
    ensures Low(u) == 255 - Low(w)
  {
    Complement(w);
  }

  ghost predicate NotWorks(f: bv32 -> Byte, next: bv32 -> bv32, w: bv32, u: bv32) {
    && f(u) == 255 - f(w) && f(next(u)) == 255 - f(next(w))
    && f(next(next(u))) == 255 - f(next(next(w))) && f(next(next(next(u)))) == 255 - f(next(next(next(w))))
  }

  lemma NotIsLawful(w: bv32)
    ensures NotWorks(Low, Next, w, NotBits(w))
  {
    NotShifts(w);
    Complement(w);
    ComplementOf(Next(NotBits(w)), Next(w));
    ComplementOf(Next(Next(NotBits(w))), Next(Next(w)));
    ComplementOf(Next(Next(Next(NotBits(w)))), Next(Next(Next(w))));
  }

  lemma NotBy(f: bv32 -> Byte, next: bv32 -> bv32, w: bv32, u: bv32)
    requires NotWorks(f, next, w, u)
    ensures Not(NumberBy(f, next, w)) == NumberBy(f, next, u)
  {
  }

  // ----- the functions of MD5

  /** The functions of section 3.4 of RFC 1321 in its own terms. */
  function FunBits(round: nat, x: bv32, y: bv32, z: bv32): bv32 {
    match round
    case 0 => OrBits(AndBits(x, y), AndBits(NotBits(x), z))
    case 1 => OrBits(AndBits(x, z), AndBits(y, NotBits(z)))
    case 2 => XorBits(XorBits(x, y), z)
    case _ => XorBits(y, OrBits(x, NotBits(z)))
  }

  lemma FirstFun(g: bv32 -> Word, x: bv32, y: bv32, z: bv32)
    requires WorksOn(And, AndBits, g) && WorksOn(Or, OrBits, g) && Not(g(x)) == g(NotBits(x))
    ensures Fun(0, g(x), g(y), g(z)) == g(FunBits(0, x, y, z))
  {
  }

  lemma SecondFun(g: bv32 -> Word, x: bv32, y: bv32, z: bv32)
    requires WorksOn(And, AndBits, g) && WorksOn(Or, OrBits, g) && Not(g(z)) == g(NotBits(z))
    ensures Fun(1, g(x), g(y), g(z)) == g(FunBits(1, x, y, z))
  {
  }

  lemma ThirdFun(g: bv32 -> Word, x: bv32, y: bv32, z: bv32)
    requires WorksOn(Xor, XorBits, g)
    ensures Fun(2, g(x), g(y), g(z)) == g(FunBits(2, x, y, z))
  {
  }

  lemma LastFun(g: bv32 -> Word, round: nat, x: bv32, y: bv32, z: bv32)
    requires WorksOn(Or, OrBits, g) && WorksOn(Xor, XorBits, g) && Not(g(z)) == g(NotBits(z)) && round > 2
    ensures Fun(round, g(x), g(y), g(z)) == g(FunBits(round, x, y, z))
  {
  }

  lemma FunBy(g: bv32 -> Word, round: nat, x: bv32, y: bv32, z: bv32)
    requires WorksOn(And, AndBits, g) && WorksOn(Or, OrBits, g) && WorksOn(Xor, XorBits, g)
    requires Not(g(x)) == g(NotBits(x)) && Not(g(z)) == g(NotBits(z))
    ensures Fun(round, g(x), g(y), g(z)) == g(FunBits(round, x, y, z))
  {
    match round
    case 0 => FirstFun(g, x, y, z);
    case 1 => SecondFun(g, x, y, z);
    case 2 => ThirdFun(g, x, y, z);
    case _ => LastFun(g, round, x, y, z);
  }

  lemma NotOnWords(w: bv32)
    ensures Not(NumberOf(Low, Next)(w)) == NumberOf(Low, Next)(NotBits(w))
  {
    NotIsLawful(w);
    NotBy(Low, Next, w, NotBits(w));
  }

  lemma FunOnWords(round: nat, x: bv32, y: bv32, z: bv32)
    ensures Fun(round, Number(x), Number(y), Number(z)) == Number(FunBits(round, x, y, z))
  {
    OnWords();
    NotOnWords(x);
    NotOnWords(z);
    FunBy(NumberOf(Low, Next), round, x, y, z);
  }
}
