/**
 The byte layout of the shared-memory ring: slots, records, skip marks, and what a reader that
 starts at head can make of them.
 */
module RingLayout {
  import opened Arithmetic
  import opened Common

  const TOKEN_NO_DATA: nat := 0
  const TOKEN_SKIPPED: nat := 0xdb030000
  const TOKEN_HAS_DATA: nat := 0x0000db03
  const MAX_DATA_LENGTH: nat := 65536
  const RESERVE_BLOCK_COUNT: nat := 100
  const WORD: nat := 0x1_0000_0000
  const HEADER: nat := 16 // token, data length, seconds, microseconds: four 32-bit words

  // ----- bytes and 32-bit words, low byte first

  function Slice(m: seq<Byte>, a: nat, b: nat): seq<Byte> {
    if a <= b <= |m| then m[a..b] else []
  }

  function At(m: seq<Byte>, o: nat): int {
    if o < |m| then m[o] else 0
  }

  function Word32(v: nat): (bs: seq<Byte>)
    requires v < WORD
    ensures |bs| == 4
  {
    [v % 256, v / 256 % 256, v / 65536 % 256, v / 16777216]
  }

  function Read32(m: seq<Byte>, o: nat): nat {
    At(m, o) + 256 * At(m, o + 1) + 65536 * At(m, o + 2) + 16777216 * At(m, o + 3)
  }

  lemma ReadWord32(m: seq<Byte>, o: nat, v: nat)
    requires v < WORD && o + 4 <= |m| && m[o..o + 4] == Word32(v)
    ensures Read32(m, o) == v
  {
    assert m[o] == m[o..o + 4][0] && m[o + 1] == m[o..o + 4][1];
    assert m[o + 2] == m[o..o + 4][2] && m[o + 3] == m[o..o + 4][3];
    assert v / 65536 == v / 256 / 256 && v / 16777216 == v / 256 / 256 / 256;
  }

  /** The words that tell the state of a slot, byte by byte: low byte first. */
  lemma KnownTokens()
    ensures Word32(TOKEN_NO_DATA) == [0, 0, 0, 0]
    ensures Word32(TOKEN_HAS_DATA) == [0x03, 0xdb, 0, 0]
    ensures Word32(TOKEN_SKIPPED) == [0, 0, 0x03, 0xdb]
    ensures Read32([1, 2, 3, 4], 0) == 0x0403_0201
  {
  }

  lemma Read32OfSlice(m: seq<Byte>, m': seq<Byte>, a: nat, b: nat, o: nat)
    requires a <= o && o + 4 <= b <= |m| && b <= |m'| && m[a..b] == m'[a..b]
    ensures Read32(m, o) == Read32(m', o)
  {
    forall i | o <= i < o + 4
      ensures At(m, i) == At(m', i)
    {
      assert m[i] == m[a..b][i - a] && m'[i] == m'[a..b][i - a];
    }
  }

  lemma SliceOfSlice(m: seq<Byte>, m': seq<Byte>, a: nat, b: nat, c: nat, d: nat)
    requires a <= c <= d <= b <= |m| && b <= |m'| && m[a..b] == m'[a..b]
    ensures m[c..d] == m'[c..d]
  {
    forall i | c <= i < d
      ensures m[i] == m'[i]
    {
      assert m[i] == m[a..b][i - a] && m'[i] == m'[a..b][i - a];
    }
  }

  // ----- geometry

  /** ns bytes to a slot, cap usable slots; the array has one slot more. */
  datatype Geo = Geo(ns: nat, cap: nat)

  ghost predicate GoodGeo(g: Geo) {
    g.ns > HEADER && g.cap > RESERVE_BLOCK_COUNT
  }

  function Slots(g: Geo): nat {
    g.cap + 1
  }

  /** Byte offset of slot p; OffIsProduct gives the closed form. */
  ghost function Off(g: Geo, p: nat): nat {
    if p == 0 then 0 else Off(g, p - 1) + g.ns
  }

  lemma {:induction false} OffIsProduct(g: Geo, p: nat)
    ensures Off(g, p) == p * g.ns
  {
    if p > 0 {
      OffIsProduct(g, p - 1);
      assert p * g.ns == (p - 1) * g.ns + g.ns;
    }
  }

  lemma {:induction false} OffMonotone(g: Geo, p: nat, q: nat)
    requires p <= q
    ensures Off(g, p) <= Off(g, q)
    ensures Off(g, q) == Off(g, p) + Off(g, q - p)
    ensures p < q ==> Off(g, p) + g.ns <= Off(g, q)
    decreases q
  {
    if p < q {
      OffMonotone(g, p, q - 1);
    }
  }

  /** How many slots a record of len bytes takes; NeededIsMacro gives the source's formula. */
  ghost function Needed(g: Geo, len: nat): nat
    requires g.ns > HEADER
  {
    Blocks(g.ns, len + HEADER)
  }

  ghost function Blocks(ns: nat, bytes: nat): nat
    requires ns > 0
  {
    if bytes <= ns then 1 else 1 + Blocks(ns, bytes - ns)
  }

  lemma {:induction false} BlocksIsDivision(ns: nat, bytes: nat)
    requires ns > 0 && bytes > 0
    ensures Blocks(ns, bytes) == (bytes + ns - 1) / ns
  {
    if bytes > ns {
      BlocksIsDivision(ns, bytes - ns);
      assert (bytes + ns - 1) / ns == (bytes - 1 + ns) / ns == (bytes - 1) / ns + 1 by {
        DivisionStep(bytes - 1, ns);
      }
    } else {
      DivisionStep(bytes - 1, ns);
      assert (bytes - 1) / ns == 0 by { SmallDivision(bytes - 1, ns); }
    }
  }

  lemma NeededIsMacro(g: Geo, len: nat)
    requires g.ns > HEADER
    ensures Needed(g, len) == (len + HEADER + g.ns - 1) / g.ns
  {
    BlocksIsDivision(g.ns, len + HEADER);
  }

  /** A record fits its slots, and would not fit one slot fewer. */
  lemma {:induction false} BlocksFit(g: Geo, bytes: nat)
    requires g.ns > 0 && bytes > 0
    ensures 1 <= Blocks(g.ns, bytes)
    ensures Off(g, Blocks(g.ns, bytes) - 1) < bytes <= Off(g, Blocks(g.ns, bytes))
  {
    if bytes > g.ns {
      BlocksFit(g, bytes - g.ns);
    } else {
      assert Off(g, 1) == Off(g, 0) + g.ns;
    }
  }

  /** The slot n places after p, for steps that stop at the array's end or before it. */
  function After(g: Geo, p: nat, n: nat): nat {
    if p + n == Slots(g) then 0 else p + n
  }

  lemma AfterIsMacro(g: Geo, p: nat, n: nat)
    requires p < Slots(g) && p + n <= Slots(g)
    ensures After(g, p, n) == (p + n) % Slots(g) < Slots(g)
  {
  }

  /** How many slots a reader at p has before it reaches t. */
  function Dist(g: Geo, p: nat, t: nat): int {
    if p <= t then t - p else t + Slots(g) - p
  }

  /** Slot x is one of those Dist(g, h, t) slots. */
  predicate InUse(g: Geo, h: nat, t: nat, x: nat) {
    x < Slots(g) && if h <= t then h <= x < t else x >= h || x < t
  }

  // ----- records

  datatype Record = Record(data: seq<Byte>, sec: nat, usec: nat)

  ghost predicate GoodRecord(r: Record) {
    0 < |r.data| <= MAX_DATA_LENGTH && r.sec < WORD && r.usec < WORD
  }

  /** The memory is the slot array. */
  ghost predicate Sized(m: seq<Byte>, g: Geo) {
    GoodGeo(g) && |m| == Off(g, Slots(g))
  }

  lemma SlotFits(m: seq<Byte>, g: Geo, p: nat)
    requires Sized(m, g) && p < Slots(g)
    ensures Off(g, p) + g.ns <= |m|
  {
    OffMonotone(g, p, Slots(g));
  }

  ghost function Token(m: seq<Byte>, g: Geo, p: nat): nat {
    Read32(m, Off(g, p))
  }

  ghost function LengthAt(m: seq<Byte>, g: Geo, p: nat): nat {
    Read32(m, Off(g, p) + 4)
  }

  ghost function RecordAt(m: seq<Byte>, g: Geo, p: nat): Record {
    var o := Off(g, p);
    Record(Slice(m, o + HEADER, o + HEADER + LengthAt(m, g, p)), Read32(m, o + 8), Read32(m, o + 12))
  }

  // ----- the reader's view

  /** A record starts at p, its slots are contiguous, and they end before t. */
  ghost predicate RecordFits(m: seq<Byte>, g: Geo, p: nat, t: nat) {
    && g.ns > HEADER
    && Token(m, g, p) == TOKEN_HAS_DATA
    && 0 < LengthAt(m, g, p) <= MAX_DATA_LENGTH
    && 0 < Needed(g, LengthAt(m, g, p)) <= Dist(g, p, t)
    && p + Needed(g, LengthAt(m, g, p)) <= Slots(g)
  }

  /**
   What lies between p and t: skip marks are passed over one slot at a time, a record is taken
   whole, and its slots must be contiguous. Anything else is not a queue.
   */
  ghost function Decode(m: seq<Byte>, g: Geo, p: nat, t: nat): Option<seq<Record>>
    requires p < Slots(g) && t < Slots(g)
    decreases Dist(g, p, t)
  {
    if p == t then Some([])
    else if Token(m, g, p) == TOKEN_SKIPPED then Decode(m, g, After(g, p, 1), t)
    else if RecordFits(m, g, p, t) then
      var rest := Decode(m, g, After(g, p, Needed(g, LengthAt(m, g, p))), t);
      if rest.Some? then Some([RecordAt(m, g, p)] + rest.value) else None
    else None
  }

  // ----- frames

  ghost predicate SameSlot(m: seq<Byte>, m': seq<Byte>, g: Geo, x: nat) {
    Slice(m, Off(g, x), Off(g, x) + g.ns) == Slice(m', Off(g, x), Off(g, x) + g.ns)
  }

  ghost predicate SameInUse(m: seq<Byte>, m': seq<Byte>, g: Geo, h: nat, t: nat) {
    forall x {:trigger SameSlot(m, m', g, x)} :: 0 <= x < Slots(g) && InUse(g, h, t, x) ==> SameSlot(m, m', g, x)
  }

  lemma {:induction false} SameRun(m: seq<Byte>, m': seq<Byte>, g: Geo, p: nat, n: nat)
    requires Sized(m, g) && Sized(m', g) && p + n <= Slots(g)
    requires forall x {:trigger SameSlot(m, m', g, x)} :: p <= x < p + n ==> SameSlot(m, m', g, x)
    ensures Off(g, p) <= Off(g, p + n) <= |m| && m[Off(g, p)..Off(g, p + n)] == m'[Off(g, p)..Off(g, p + n)]
  {
    OffMonotone(g, p, p + n);
    OffMonotone(g, p + n, Slots(g));
    if n > 0 {
      SameRun(m, m', g, p, n - 1);
      var a, b, c := Off(g, p), Off(g, p + n - 1), Off(g, p + n);
      assert c == b + g.ns;
      assert SameSlot(m, m', g, p + n - 1);
      assert m[a..c] == m[a..b] + m[b..c] && m'[a..c] == m'[a..b] + m'[b..c];
    }
  }

  lemma SameHeader(m: seq<Byte>, m': seq<Byte>, g: Geo, p: nat)
    requires Sized(m, g) && Sized(m', g) && p < Slots(g) && SameSlot(m, m', g, p)
    ensures Token(m, g, p) == Token(m', g, p) && LengthAt(m, g, p) == LengthAt(m', g, p)
    ensures Read32(m, Off(g, p) + 8) == Read32(m', Off(g, p) + 8)
    ensures Read32(m, Off(g, p) + 12) == Read32(m', Off(g, p) + 12)
  {
    SlotFits(m, g, p);
    var a, b := Off(g, p), Off(g, p) + g.ns;
    Read32OfSlice(m, m', a, b, a);
    Read32OfSlice(m, m', a, b, a + 4);
    Read32OfSlice(m, m', a, b, a + 8);
    Read32OfSlice(m, m', a, b, a + 12);
  }

  lemma SameRecord(m: seq<Byte>, m': seq<Byte>, g: Geo, p: nat, t: nat)
    requires Sized(m, g) && Sized(m', g) && p < Slots(g) && RecordFits(m, g, p, t)
    requires forall x {:trigger SameSlot(m, m', g, x)} ::
      p <= x < p + Needed(g, LengthAt(m, g, p)) ==> SameSlot(m, m', g, x)
    ensures RecordFits(m', g, p, t) && RecordAt(m', g, p) == RecordAt(m, g, p)
    ensures LengthAt(m', g, p) == LengthAt(m, g, p)
  {
    assert SameSlot(m, m', g, p);
    SameHeader(m, m', g, p);
    SameData(m, m', g, p, LengthAt(m, g, p));
  }

  lemma SameData(m: seq<Byte>, m': seq<Byte>, g: Geo, p: nat, len: nat)
    requires Sized(m, g) && Sized(m', g) && p + Needed(g, len) <= Slots(g)
    requires forall x {:trigger SameSlot(m, m', g, x)} :: p <= x < p + Needed(g, len) ==> SameSlot(m, m', g, x)
    ensures var o := Off(g, p) + HEADER; Slice(m, o, o + len) == Slice(m', o, o + len)
  {
    SameRun(m, m', g, p, Needed(g, len));
    SameRunData(m, m', g, p, len);
  }

  lemma SameRunData(m: seq<Byte>, m': seq<Byte>, g: Geo, p: nat, len: nat)
    requires g.ns > HEADER && |m'| == |m|
    requires var a, b := Off(g, p), Off(g, p + Needed(g, len)); a <= b <= |m| && m[a..b] == m'[a..b]
    ensures var o := Off(g, p) + HEADER; Slice(m, o, o + len) == Slice(m', o, o + len)
  {
    var n := Needed(g, len);
    BlocksFit(g, len + HEADER);
    OffMonotone(g, p, p + n);
    SliceOfSlice(m, m', Off(g, p), Off(g, p + n), Off(g, p) + HEADER, Off(g, p) + HEADER + len);
  }

  lemma SameInUseAfter(m: seq<Byte>, m': seq<Byte>, g: Geo, p: nat, t: nat, n: nat)
    requires p < Slots(g) && t < Slots(g) && SameInUse(m, m', g, p, t)
    requires 0 < n <= Dist(g, p, t) && p + n <= Slots(g)
    ensures forall x {:trigger SameSlot(m, m', g, x)} :: p <= x < p + n ==> SameSlot(m, m', g, x)
    ensures SameInUse(m, m', g, After(g, p, n), t)
  {
  }

  /** Memories that agree on the slots in use hold the same queue. */
  lemma {:induction false} DecodeFrame(m: seq<Byte>, m': seq<Byte>, g: Geo, p: nat, t: nat)
    requires Sized(m, g) && Sized(m', g) && p < Slots(g) && t < Slots(g)
    requires SameInUse(m, m', g, p, t) && Decode(m, g, p, t).Some?
    ensures Decode(m', g, p, t) == Decode(m, g, p, t)
    decreases Dist(g, p, t)
  {
    if p != t {
      SameInUseAfter(m, m', g, p, t, 1);
      assert SameSlot(m, m', g, p);
      SameHeader(m, m', g, p);
      if Token(m, g, p) == TOKEN_SKIPPED {
        DecodeFrame(m, m', g, After(g, p, 1), t);
      } else {
        var n := Needed(g, LengthAt(m, g, p));
        SameInUseAfter(m, m', g, p, t, n);
        SameRecord(m, m', g, p, t);
        DecodeFrame(m, m', g, After(g, p, n), t);
      }
    }
  }

  lemma DistStep(g: Geo, p: nat, t: nat, n: nat)
    requires p < Slots(g) && t < Slots(g) && 0 < n <= Dist(g, p, t) && p + n <= Slots(g)
    ensures After(g, p, n) < Slots(g) && Dist(g, After(g, p, n), t) == Dist(g, p, t) - n
  {
  }

  lemma DistAdds(g: Geo, p: nat, t: nat, u: nat)
    requires p < Slots(g) && t < Slots(g) && u < Slots(g) && Dist(g, p, t) + Dist(g, t, u) < Slots(g)
    ensures Dist(g, p, u) == Dist(g, p, t) + Dist(g, t, u)
    ensures p != t ==> p != u
  {
  }

  /** Two stretches that do not go round the ring join. */
  lemma {:induction false} DecodeJoins(m: seq<Byte>, g: Geo, p: nat, t: nat, u: nat)
    requires p < Slots(g) && t < Slots(g) && u < Slots(g)
    requires Dist(g, p, t) + Dist(g, t, u) < Slots(g)
    requires Decode(m, g, p, t).Some? && Decode(m, g, t, u).Some?
    ensures Decode(m, g, p, u) == Some(Decode(m, g, p, t).value + Decode(m, g, t, u).value)
    decreases Dist(g, p, t)
  {
    var last := Decode(m, g, t, u).value;
    if p == t {
      assert Decode(m, g, p, t).value + last == last;
    } else {
      DistAdds(g, p, t, u);
      if Token(m, g, p) == TOKEN_SKIPPED {
        DistStep(g, p, t, 1);
        DecodeJoins(m, g, After(g, p, 1), t, u);
      } else {
        JoinRecord(m, g, p, t, u);
      }
    }
  }

  lemma {:induction false} JoinRecord(m: seq<Byte>, g: Geo, p: nat, t: nat, u: nat)
    requires p < Slots(g) && t < Slots(g) && u < Slots(g) && p != t
    requires Dist(g, p, t) + Dist(g, t, u) < Slots(g) && Dist(g, p, u) == Dist(g, p, t) + Dist(g, t, u) && p != u
    requires Token(m, g, p) != TOKEN_SKIPPED
    requires Decode(m, g, p, t).Some? && Decode(m, g, t, u).Some?
    ensures Decode(m, g, p, u) == Some(Decode(m, g, p, t).value + Decode(m, g, t, u).value)
    decreases Dist(g, p, t), 0
  {
    var q := After(g, p, Needed(g, LengthAt(m, g, p)));
    DistStep(g, p, t, Needed(g, LengthAt(m, g, p)));
    DecodeJoins(m, g, q, t, u);
    DecodeRecord(m, g, p, u);
    Associative([RecordAt(m, g, p)], Decode(m, g, q, t).value, Decode(m, g, t, u).value);
  }

  lemma Associative<T>(a: seq<T>, b: seq<T>, c: seq<T>)
    ensures a + b + c == a + (b + c)
  {
  }

  lemma DecodeRecord(m: seq<Byte>, g: Geo, p: nat, t: nat)
    requires p < Slots(g) && t < Slots(g) && p != t && RecordFits(m, g, p, t)
    ensures var q := After(g, p, Needed(g, LengthAt(m, g, p)));
      && q < Slots(g)
      && (Decode(m, g, q, t).Some? ==>
            Decode(m, g, p, t) == Some([RecordAt(m, g, p)] + Decode(m, g, q, t).value))
  {
    DistStep(g, p, t, Needed(g, LengthAt(m, g, p)));
  }
}
