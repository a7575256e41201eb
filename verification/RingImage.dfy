/** What mq_put and mq_get write, as functions of the memory, and what a reader then sees. */
module RingImage {
  import opened Common
  import opened RingLayout
  import opened RingReserve

  /** The memory after the bytes bs were stored at offset o. */
  function WriteAt(m: seq<Byte>, o: nat, bs: seq<Byte>): (r: seq<Byte>)
    ensures |r| == |m|
  {
    if o + |bs| <= |m| then m[..o] + bs + m[o + |bs|..] else m
  }

  lemma WriteReads(m: seq<Byte>, o: nat, bs: seq<Byte>, a: nat, b: nat)
    requires o + |bs| <= |m| && a <= b <= |m|
    ensures WriteAt(m, o, bs)[o..o + |bs|] == bs
    ensures b <= o || a >= o + |bs| ==> WriteAt(m, o, bs)[a..b] == m[a..b]
  {
    var r := WriteAt(m, o, bs);
    if b <= o || a >= o + |bs| {
      forall i | a <= i < b
        ensures r[i] == m[i]
      {
      }
    }
  }

  /** Nothing outside [lo, hi) differs. */
  ghost predicate Agree(m: seq<Byte>, m': seq<Byte>, lo: nat, hi: nat) {
    |m'| == |m| && forall i :: 0 <= i < |m| && (i < lo || hi <= i) ==> m'[i] == m[i]
  }

  lemma AgreeOnSlot(m: seq<Byte>, m': seq<Byte>, g: Geo, a: nat, b: nat, x: nat)
    requires Sized(m, g) && Agree(m, m', Off(g, a), Off(g, b)) && a <= b <= Slots(g)
    requires x < Slots(g) && (x < a || b <= x)
    ensures SameSlot(m, m', g, x)
  {
    SlotFits(m, g, x);
    if x < a {
      OffMonotone(g, x, a);
    } else {
      OffMonotone(g, b, x);
    }
    assert m[Off(g, x)..Off(g, x) + g.ns] == m'[Off(g, x)..Off(g, x) + g.ns];
  }

  // ----- the record

  /** The stores of mq_put for one record: length, time, data, and the token last. */
  function StoreRecord(m: seq<Byte>, o: nat, r: Record): (m': seq<Byte>)
    requires 0 < |r.data| <= MAX_DATA_LENGTH && r.sec < WORD && r.usec < WORD
    ensures |m'| == |m|
  {
    var m1 := WriteAt(m, o + 4, Word32(|r.data|));
    var m2 := WriteAt(m1, o + 8, Word32(r.sec));
    var m3 := WriteAt(m2, o + 12, Word32(r.usec));
    var m4 := WriteAt(m3, o + HEADER, r.data);
    WriteAt(m4, o, Word32(TOKEN_HAS_DATA))
  }

  lemma StoredWords(m: seq<Byte>, o: nat, r: Record)
    requires GoodRecord(r) && o + HEADER + |r.data| <= |m|
    ensures var m' := StoreRecord(m, o, r);
      && Read32(m', o) == TOKEN_HAS_DATA
      && Read32(m', o + 4) == |r.data|
      && Read32(m', o + 8) == r.sec
      && Read32(m', o + 12) == r.usec
      && m'[o + HEADER..o + HEADER + |r.data|] == r.data
  {
    var len := |r.data|;
    var w1, w2, w3, w0 := Word32(len), Word32(r.sec), Word32(r.usec), Word32(TOKEN_HAS_DATA);
    var m1 := WriteAt(m, o + 4, w1);
    var m2 := WriteAt(m1, o + 8, w2);
    var m3 := WriteAt(m2, o + 12, w3);
    var m4 := WriteAt(m3, o + HEADER, r.data);
    var m5 := WriteAt(m4, o, w0);
    WriteReads(m, o + 4, w1, 0, 0);
    WriteReads(m1, o + 8, w2, o + 4, o + 8);
    WriteReads(m2, o + 12, w3, o + 4, o + 8);
    WriteReads(m2, o + 12, w3, o + 8, o + 12);
    WriteReads(m3, o + HEADER, r.data, o + 4, o + 8);
    WriteReads(m3, o + HEADER, r.data, o + 8, o + 12);
    WriteReads(m3, o + HEADER, r.data, o + 12, o + 16);
    WriteReads(m4, o, w0, o + 4, o + 8);
    WriteReads(m4, o, w0, o + 8, o + 12);
    WriteReads(m4, o, w0, o + 12, o + 16);
    WriteReads(m4, o, w0, o + HEADER, o + HEADER + len);
    ReadWord32(m5, o, TOKEN_HAS_DATA);
    ReadWord32(m5, o + 4, len);
    ReadWord32(m5, o + 8, r.sec);
    ReadWord32(m5, o + 12, r.usec);
  }

  lemma StoreAgrees(m: seq<Byte>, o: nat, r: Record)
    requires GoodRecord(r) && o + HEADER + |r.data| <= |m|
    ensures Agree(m, StoreRecord(m, o, r), o, o + HEADER + |r.data|)
  {
    var hi := o + HEADER + |r.data|;
    var m1 := WriteAt(m, o + 4, Word32(|r.data|));
    var m2 := WriteAt(m1, o + 8, Word32(r.sec));
    var m3 := WriteAt(m2, o + 12, Word32(r.usec));
    var m4 := WriteAt(m3, o + HEADER, r.data);
    WriteAgrees(m, o + 4, Word32(|r.data|), o, hi);
    WriteAgrees(m1, o + 8, Word32(r.sec), o, hi);
    WriteAgrees(m2, o + 12, Word32(r.usec), o, hi);
    WriteAgrees(m3, o + HEADER, r.data, o, hi);
    WriteAgrees(m4, o, Word32(TOKEN_HAS_DATA), o, hi);
    AgreeAll(m, m1, m2, m3, m4, WriteAt(m4, o, Word32(TOKEN_HAS_DATA)), o, hi);
  }

  lemma AgreeAll(m: seq<Byte>, m1: seq<Byte>, m2: seq<Byte>, m3: seq<Byte>, m4: seq<Byte>, m5: seq<Byte>,
                 lo: nat, hi: nat)
    requires Agree(m, m1, lo, hi) && Agree(m1, m2, lo, hi) && Agree(m2, m3, lo, hi)
    requires Agree(m3, m4, lo, hi) && Agree(m4, m5, lo, hi)
    ensures Agree(m, m5, lo, hi)
  {
  }

  lemma WriteAgrees(m: seq<Byte>, o: nat, bs: seq<Byte>, lo: nat, hi: nat)
    requires lo <= o && o + |bs| <= hi <= |m|
    ensures Agree(m, WriteAt(m, o, bs), lo, hi)
  {
  }

  // ----- the skip marks

  /** Slots p and up carry the skip token. */
  ghost function MarkSkipped(m: seq<Byte>, g: Geo, p: nat): (r: seq<Byte>)
    ensures |r| == |m|
    decreases Slots(g) - p
  {
    if p >= Slots(g) then m else MarkSkipped(WriteAt(m, Off(g, p), Word32(TOKEN_SKIPPED)), g, p + 1)
  }

  lemma {:induction false} SkipMarks(m: seq<Byte>, g: Geo, p: nat)
    requires Sized(m, g) && p <= Slots(g)
    ensures Agree(m, MarkSkipped(m, g, p), Off(g, p), |m|)
    ensures forall x :: p <= x < Slots(g) ==> Token(MarkSkipped(m, g, p), g, x) == TOKEN_SKIPPED
    decreases Slots(g) - p
  {
    if p < Slots(g) {
      SlotFits(m, g, p);
      var m1 := WriteAt(m, Off(g, p), Word32(TOKEN_SKIPPED));
      SkipMarks(m1, g, p + 1);
      var m' := MarkSkipped(m, g, p);
      assert Off(g, p + 1) == Off(g, p) + g.ns;
      WriteReads(m, Off(g, p), Word32(TOKEN_SKIPPED), 0, 0);
      assert m'[Off(g, p)..Off(g, p) + 4] == m1[Off(g, p)..Off(g, p) + 4];
      ReadWord32(m', Off(g, p), TOKEN_SKIPPED);
    }
  }

  /** A reader runs over skip marks to slot 0. */
  lemma {:induction false} DecodeSkips(m: seq<Byte>, g: Geo, p: nat, t: nat)
    requires p < Slots(g) && t < p
    requires forall x :: p <= x < Slots(g) ==> Token(m, g, x) == TOKEN_SKIPPED
    ensures Decode(m, g, p, t) == Decode(m, g, 0, t)
    decreases Slots(g) - p
  {
    if p + 1 < Slots(g) {
      DecodeSkips(m, g, p + 1, t);
    }
  }

  // ----- mq_put

  /** The memory after mq_put stored record r under reservation v, tail being the old tail. */
  ghost function PutImage(m: seq<Byte>, g: Geo, tail: nat, v: Reservation, r: Record): seq<Byte>
    requires GoodRecord(r) && v.Reserved?
  {
    StoreRecord(if v.idx != tail then MarkSkipped(m, g, tail) else m, Off(g, v.idx), r)
  }

  lemma RecordFitsReservation(m: seq<Byte>, g: Geo, head: nat, tail: nat, r: Record)
    requires Sized(m, g) && Positions(g, head, tail) && GoodRecord(r)
    requires Reserve(g, head, tail, Needed(g, |r.data|)).Reserved?
    ensures var n, v := Needed(g, |r.data|), Reserve(g, head, tail, Needed(g, |r.data|));
      && n > 0 && v.idx + n <= Slots(g)
      && Off(g, v.idx) + HEADER + |r.data| <= Off(g, v.idx + n) <= |m|
  {
    var n, v := Needed(g, |r.data|), Reserve(g, head, tail, Needed(g, |r.data|));
    BlocksFit(g, |r.data| + HEADER);
    ReserveIsRoom(g, head, tail, n);
    OffMonotone(g, v.idx, v.idx + n);
    OffMonotone(g, v.idx + n, Slots(g));
  }

  lemma MarksSpare(m: seq<Byte>, g: Geo, tail: nat, x: nat)
    requires Sized(m, g) && 0 < tail <= Slots(g) && x < tail
    ensures |MarkSkipped(m, g, tail)| == |m| && SameSlot(m, MarkSkipped(m, g, tail), g, x)
  {
    SkipMarks(m, g, tail);
    AgreeOnSlot(m, MarkSkipped(m, g, tail), g, tail, Slots(g), x);
  }

  lemma RecordInSlots(m: seq<Byte>, g: Geo, idx: nat, n: nat, len: nat)
    requires Sized(m, g) && n == Needed(g, len) && idx + n <= Slots(g)
    ensures Off(g, idx) + HEADER + len <= Off(g, idx + n) <= |m|
  {
    BlocksFit(g, len + HEADER);
    OffMonotone(g, idx, idx + n);
    OffMonotone(g, idx + n, Slots(g));
  }

  lemma AgreeWidens(m: seq<Byte>, m': seq<Byte>, lo: nat, hi: nat, wide: nat)
    requires Agree(m, m', lo, hi) && hi <= wide
    ensures Agree(m, m', lo, wide)
  {
  }

  /** m' is m with a record stored at slot idx. */
  lemma StoreSpares(m: seq<Byte>, m': seq<Byte>, g: Geo, idx: nat, n: nat, len: nat, x: nat)
    requires Sized(m, g) && n == Needed(g, len) && idx + n <= Slots(g)
    requires Agree(m, m', Off(g, idx), Off(g, idx) + HEADER + len)
    requires x < Slots(g) && (x < idx || idx + n <= x)
    ensures SameSlot(m, m', g, x)
  {
    RecordInSlots(m, g, idx, n, len);
    AgreeWidens(m, m', Off(g, idx), Off(g, idx) + HEADER + len, Off(g, idx + n));
    AgreeOnSlot(m, m', g, idx, idx + n, x);
  }

  /** A slot that is neither skipped nor the record's is left alone. */
  lemma PutSpares(m: seq<Byte>, g: Geo, head: nat, tail: nat, r: Record, x: nat)
    requires Sized(m, g) && Positions(g, head, tail) && GoodRecord(r)
    requires Reserve(g, head, tail, Needed(g, |r.data|)).Reserved?
    requires var n, v := Needed(g, |r.data|), Reserve(g, head, tail, Needed(g, |r.data|));
      x < Slots(g) && (x < v.idx || v.idx + n <= x) && (v.idx != tail ==> 0 < tail && x < tail)
    ensures var m' := PutImage(m, g, tail, Reserve(g, head, tail, Needed(g, |r.data|)), r);
      |m'| == |m| && SameSlot(m, m', g, x)
  {
    var n, v := Needed(g, |r.data|), Reserve(g, head, tail, Needed(g, |r.data|));
    RecordFitsReservation(m, g, head, tail, r);
    var m1 := if v.idx != tail then MarkSkipped(m, g, tail) else m;
    if v.idx != tail {
      MarksSpare(m, g, tail, x);
    }
    StoreAgrees(m1, Off(g, v.idx), r);
    StoreSpares(m1, StoreRecord(m1, Off(g, v.idx), r), g, v.idx, n, |r.data|, x);
  }

  lemma PutTouches(g: Geo, head: nat, tail: nat, n: nat, x: nat)
    requires Positions(g, head, tail) && n > 0 && Reserve(g, head, tail, n).Reserved? && x < Slots(g)
    requires InUse(g, head, tail, x) || !InUse(g, tail, Reserve(g, head, tail, n).tail, x)
    ensures var v := Reserve(g, head, tail, n);
      (x < v.idx || v.idx + n <= x) && (v.idx != tail ==> 0 < tail && x < tail)
  {
    ReserveIsRoom(g, head, tail, n);
  }

  lemma PutKeepsUsed(m: seq<Byte>, g: Geo, head: nat, tail: nat, r: Record)
    requires Sized(m, g) && Positions(g, head, tail) && GoodRecord(r)
    requires Reserve(g, head, tail, Needed(g, |r.data|)).Reserved?
    ensures var v := Reserve(g, head, tail, Needed(g, |r.data|));
      var m' := PutImage(m, g, tail, v, r);
      && |m'| == |m|
      && (forall x: nat :: x < Slots(g) && !InUse(g, tail, v.tail, x) ==> SameSlot(m, m', g, x))
      && SameInUse(m, m', g, head, tail)
  {
    var n, v := Needed(g, |r.data|), Reserve(g, head, tail, Needed(g, |r.data|));
    BlocksFit(g, |r.data| + HEADER);
    forall x: nat | x < Slots(g) && (!InUse(g, tail, v.tail, x) || InUse(g, head, tail, x))
      ensures SameSlot(m, PutImage(m, g, tail, v, r), g, x)
    {
      PutTouches(g, head, tail, n, x);
      PutSpares(m, g, head, tail, r, x);
    }
    if v.idx != tail {
      ReserveIsRoom(g, head, tail, n);
      SkipMarks(m, g, tail);
    }
    RecordFitsReservation(m, g, head, tail, r);
    StoreAgrees(if v.idx != tail then MarkSkipped(m, g, tail) else m, Off(g, v.idx), r);
  }

  lemma PutDecodesNew(m: seq<Byte>, g: Geo, head: nat, tail: nat, r: Record)
    requires Sized(m, g) && Positions(g, head, tail) && GoodRecord(r)
    requires Reserve(g, head, tail, Needed(g, |r.data|)).Reserved?
    ensures var v := Reserve(g, head, tail, Needed(g, |r.data|));
      v.tail < Slots(g) && Decode(PutImage(m, g, tail, v, r), g, tail, v.tail) == Some([r])
  {
    var n, v := Needed(g, |r.data|), Reserve(g, head, tail, Needed(g, |r.data|));
    RecordFitsReservation(m, g, head, tail, r);
    ReserveIsRoom(g, head, tail, n);
    var m1 := if v.idx != tail then MarkSkipped(m, g, tail) else m;
    var m' := StoreRecord(m1, Off(g, v.idx), r);
    StoredDecodes(m1, g, v.idx, v.tail, r, n);
    if v.idx != tail {
      SkipMarks(m, g, tail);
      SkipMarksSurvive(m1, g, tail, n, r);
      DecodeSkips(m', g, tail, v.tail);
    }
  }

  lemma SkipMarksSurvive(m: seq<Byte>, g: Geo, tail: nat, n: nat, r: Record)
    requires Sized(m, g) && GoodRecord(r) && n <= tail <= Slots(g) && HEADER + |r.data| <= Off(g, n) <= |m|
    requires forall x :: tail <= x < Slots(g) ==> Token(m, g, x) == TOKEN_SKIPPED
    ensures forall x :: tail <= x < Slots(g) ==> Token(StoreRecord(m, 0, r), g, x) == TOKEN_SKIPPED
  {
    StoreAgrees(m, 0, r);
    var m' := StoreRecord(m, 0, r);
    forall x | tail <= x < Slots(g)
      ensures Token(m', g, x) == TOKEN_SKIPPED
    {
      AgreeOnSlot(m, m', g, 0, n, x);
      SameHeader(m, m', g, x);
    }
  }

  lemma DecodeOne(m: seq<Byte>, g: Geo, p: nat, t: nat, r: Record, n: nat)
    requires GoodGeo(g) && p < Slots(g) && t < Slots(g) && GoodRecord(r)
    requires n == Needed(g, |r.data|) && 0 < n && p + n <= Slots(g) && t == After(g, p, n) && p != t
    requires Off(g, p) + HEADER + |r.data| <= |m|
    requires Token(m, g, p) == TOKEN_HAS_DATA && LengthAt(m, g, p) == |r.data|
    requires RecordAt(m, g, p) == r
    ensures Decode(m, g, p, t) == Some([r])
  {
    assert RecordFits(m, g, p, t);
    assert Decode(m, g, t, t) == Some([]);
    assert [r] + [] == [r];
  }

  lemma StoredDecodes(m: seq<Byte>, g: Geo, p: nat, t: nat, r: Record, n: nat)
    requires GoodGeo(g) && p < Slots(g) && t < Slots(g) && GoodRecord(r)
    requires n == Needed(g, |r.data|) && 0 < n && p + n <= Slots(g) && t == After(g, p, n) && p != t
    requires Off(g, p) + HEADER + |r.data| <= |m|
    ensures Decode(StoreRecord(m, Off(g, p), r), g, p, t) == Some([r])
  {
    var m', o := StoreRecord(m, Off(g, p), r), Off(g, p);
    StoredWords(m, o, r);
    assert Slice(m', o + HEADER, o + HEADER + |r.data|) == r.data;
    DecodeOne(m', g, p, t, r, n);
  }

  /** A put appends its record to what the reader sees, whatever bytes the payload holds. */
  lemma PutAppends(m: seq<Byte>, g: Geo, head: nat, tail: nat, r: Record)
    requires Sized(m, g) && Positions(g, head, tail) && GoodRecord(r)
    requires Reserve(g, head, tail, Needed(g, |r.data|)).Reserved?
    requires Decode(m, g, head, tail).Some?
    ensures var v := Reserve(g, head, tail, Needed(g, |r.data|));
      && v.tail < Slots(g)
      && Decode(PutImage(m, g, tail, v, r), g, head, v.tail) == Some(Decode(m, g, head, tail).value + [r])
  {
    var v := Reserve(g, head, tail, Needed(g, |r.data|));
    var m' := PutImage(m, g, tail, v, r);
    RecordFitsReservation(m, g, head, tail, r);
    ReserveIsRoom(g, head, tail, Needed(g, |r.data|));
    PutKeepsUsed(m, g, head, tail, r);
    PutDecodesNew(m, g, head, tail, r);
    DecodeFrame(m, m', g, head, tail);
    DecodeJoins(m', g, head, tail, v.tail);
  }

  // ----- mq_get

  /** The tokens of the slots from p to t are cleared. */
  ghost function ClearTokens(m: seq<Byte>, g: Geo, p: nat, t: nat): (r: seq<Byte>)
    requires p < Slots(g) && t < Slots(g)
    ensures |r| == |m|
    decreases Dist(g, p, t)
  {
    if p == t then m else ClearTokens(WriteAt(m, Off(g, p), Word32(TOKEN_NO_DATA)), g, After(g, p, 1), t)
  }

  lemma InUseStep(g: Geo, p: nat, t: nat, x: nat)
    requires p < Slots(g) && t < Slots(g) && p != t && x < Slots(g)
    ensures InUse(g, p, t, x) <==> x == p || InUse(g, After(g, p, 1), t, x)
    ensures !InUse(g, After(g, p, 1), t, p)
  {
  }

  lemma ClearOneToken(m: seq<Byte>, g: Geo, p: nat)
    requires Off(g, p) + 4 <= |m|
    ensures Token(WriteAt(m, Off(g, p), Word32(TOKEN_NO_DATA)), g, p) == TOKEN_NO_DATA
  {
    WriteReads(m, Off(g, p), Word32(TOKEN_NO_DATA), 0, 0);
    ReadWord32(WriteAt(m, Off(g, p), Word32(TOKEN_NO_DATA)), Off(g, p), TOKEN_NO_DATA);
  }

  lemma WriteInSlot(m: seq<Byte>, g: Geo, p: nat, bs: seq<Byte>)
    requires Sized(m, g) && p < Slots(g) && |bs| <= g.ns
    ensures Sized(WriteAt(m, Off(g, p), bs), g)
    ensures forall x: nat :: x < Slots(g) && x != p ==> SameSlot(m, WriteAt(m, Off(g, p), bs), g, x)
  {
    SlotFits(m, g, p);
    assert Off(g, p + 1) == Off(g, p) + g.ns;
    WriteAgrees(m, Off(g, p), bs, Off(g, p), Off(g, p + 1));
    forall x: nat | x < Slots(g) && x != p
      ensures SameSlot(m, WriteAt(m, Off(g, p), bs), g, x)
    {
      AgreeOnSlot(m, WriteAt(m, Off(g, p), bs), g, p, p + 1, x);
    }
  }

  lemma {:induction false} ClearedTokens(m: seq<Byte>, g: Geo, p: nat, t: nat)
    requires Sized(m, g) && p < Slots(g) && t < Slots(g)
    ensures var m' := ClearTokens(m, g, p, t);
      && (forall x: nat :: x < Slots(g) && !InUse(g, p, t, x) ==> SameSlot(m, m', g, x))
      && (forall x: nat :: x < Slots(g) && InUse(g, p, t, x) ==> Token(m', g, x) == TOKEN_NO_DATA)
    decreases Dist(g, p, t)
  {
    if p != t {
      var m1 := WriteAt(m, Off(g, p), Word32(TOKEN_NO_DATA));
      var q := After(g, p, 1);
      SlotFits(m, g, p);
      ClearOneToken(m, g, p);
      WriteInSlot(m, g, p, Word32(TOKEN_NO_DATA));
      DistStep(g, p, t, 1);
      ClearedTokens(m1, g, q, t);
      var m' := ClearTokens(m, g, p, t);
      forall x: nat | x < Slots(g)
        ensures !InUse(g, p, t, x) ==> SameSlot(m, m', g, x)
        ensures InUse(g, p, t, x) ==> Token(m', g, x) == TOKEN_NO_DATA
      {
        InUseStep(g, p, t, x);
        if x == p {
          assert SameSlot(m1, m', g, p);
          SameHeader(m1, m', g, p);
        } else {
          assert SameSlot(m, m1, g, x);
        }
      }
    }
  }

  /** Every slot outside [head, tail) carries the empty token. */
  ghost predicate Clean(m: seq<Byte>, g: Geo, head: nat, tail: nat) {
    forall x :: 0 <= x < Slots(g) && !InUse(g, head, tail, x) ==> Token(m, g, x) == TOKEN_NO_DATA
  }

  lemma PutKeepsClean(m: seq<Byte>, g: Geo, head: nat, tail: nat, r: Record)
    requires Sized(m, g) && Positions(g, head, tail) && GoodRecord(r)
    requires Reserve(g, head, tail, Needed(g, |r.data|)).Reserved? && Clean(m, g, head, tail)
    ensures var v := Reserve(g, head, tail, Needed(g, |r.data|));
      Clean(PutImage(m, g, tail, v, r), g, head, v.tail)
  {
    var v := Reserve(g, head, tail, Needed(g, |r.data|));
    var m' := PutImage(m, g, tail, v, r);
    RecordFitsReservation(m, g, head, tail, r);
    ReserveIsRoom(g, head, tail, Needed(g, |r.data|));
    PutKeepsUsed(m, g, head, tail, r);
    forall x: nat | x < Slots(g) && !InUse(g, head, v.tail, x)
      ensures Token(m', g, x) == TOKEN_NO_DATA
    {
      assert !InUse(g, head, tail, x) && !InUse(g, tail, v.tail, x);
      assert SameSlot(m, m', g, x);
      SameHeader(m, m', g, x);
    }
  }

  /** All that one successful put guarantees, in terms of the memory before it. */
  lemma PutSummary(m: seq<Byte>, g: Geo, head: nat, tail: nat, r: Record)
    requires Sized(m, g) && Positions(g, head, tail) && GoodRecord(r)
    requires Reserve(g, head, tail, Needed(g, |r.data|)).Reserved?
    requires Decode(m, g, head, tail).Some?
    ensures var v := Reserve(g, head, tail, Needed(g, |r.data|));
      && v.tail < Slots(g) && v.tail != head && v.idx < Slots(g)
      && (v.idx == 0 && tail != 0 <==> v.idx != tail)
      && Off(g, v.idx) + HEADER + |r.data| <= |m|
      && Sized(PutImage(m, g, tail, v, r), g)
      && Decode(PutImage(m, g, tail, v, r), g, head, v.tail) == Some(Decode(m, g, head, tail).value + [r])
      && (Clean(m, g, head, tail) ==> Clean(PutImage(m, g, tail, v, r), g, head, v.tail))
  {
    RecordFitsReservation(m, g, head, tail, r);
    ReserveIsRoom(g, head, tail, Needed(g, |r.data|));
    PutAppends(m, g, head, tail, r);
    PutKeepsUsed(m, g, head, tail, r);
    if Clean(m, g, head, tail) {
      PutKeepsClean(m, g, head, tail, r);
    }
  }

  /** Clearing what was read leaves the rest readable, and everything before it clean. */
  lemma GetKeepsRest(m: seq<Byte>, g: Geo, head: nat, mid: nat, tail: nat)
    requires Sized(m, g) && Positions(g, head, tail) && mid < Slots(g)
    requires Dist(g, head, mid) + Dist(g, mid, tail) == Dist(g, head, tail)
    requires Decode(m, g, mid, tail).Some?
    ensures Decode(ClearTokens(m, g, head, mid), g, mid, tail) == Decode(m, g, mid, tail)
    ensures Clean(m, g, head, tail) ==> Clean(ClearTokens(m, g, head, mid), g, mid, tail)
  {
    var m' := ClearTokens(m, g, head, mid);
    ClearedTokens(m, g, head, mid);
    forall x: nat | x < Slots(g) && !InUse(g, head, mid, x)
      ensures SameSlot(m, m', g, x) && Token(m', g, x) == Token(m, g, x)
    {
      assert SameSlot(m, m', g, x);
      SameHeader(m, m', g, x);
    }
    forall x: nat | x < Slots(g)
      ensures InUse(g, mid, tail, x) ==> !InUse(g, head, mid, x)
      ensures InUse(g, head, tail, x) ==> InUse(g, head, mid, x) || InUse(g, mid, tail, x)
    {
    }
    DecodeFrame(m, m', g, mid, tail);
  }

  /** The record at p lies in its slots, and these before the tail. */
  lemma FirstRecordFits(m: seq<Byte>, g: Geo, p: nat, tail: nat)
    requires Sized(m, g) && p < Slots(g) && tail < Slots(g) && p != tail && RecordFits(m, g, p, tail)
    ensures var n := Needed(g, LengthAt(m, g, p));
      && 0 < n <= Dist(g, p, tail) && p + n <= Slots(g) && After(g, p, n) < Slots(g)
      && Off(g, p) + HEADER + LengthAt(m, g, p) <= |m|
  {
    var n := Needed(g, LengthAt(m, g, p));
    DistStep(g, p, tail, n);
    BlocksFit(g, LengthAt(m, g, p) + HEADER);
    OffMonotone(g, p, p + n);
    OffMonotone(g, p + n, Slots(g));
  }

  /** The record at p, its slots, and what lies behind it. */
  lemma FirstRecord(m: seq<Byte>, g: Geo, p: nat, tail: nat)
    requires Sized(m, g) && p < Slots(g) && tail < Slots(g) && p != tail
    requires Decode(m, g, p, tail).Some? && Token(m, g, p) == TOKEN_HAS_DATA
    ensures var n := Needed(g, LengthAt(m, g, p));
      var q := After(g, p, n);
      && 0 < n <= Dist(g, p, tail) && p + n <= Slots(g) && q < Slots(g)
      && Off(g, p) + HEADER + LengthAt(m, g, p) <= |m|
      && Decode(m, g, q, tail).Some?
      && Decode(m, g, p, tail).value == [RecordAt(m, g, p)] + Decode(m, g, q, tail).value
      && |RecordAt(m, g, p).data| == LengthAt(m, g, p) > 0
  {
    assert RecordFits(m, g, p, tail);
    FirstRecordFits(m, g, p, tail);
  }

  /** All that a get guarantees which found its record at slot p. */
  lemma GetSummary(m: seq<Byte>, g: Geo, head: nat, p: nat, tail: nat)
    requires Sized(m, g) && Positions(g, head, tail) && p < Slots(g) && p != tail
    requires Dist(g, head, p) + Dist(g, p, tail) == Dist(g, head, tail)
    requires Decode(m, g, p, tail).Some? && Token(m, g, p) == TOKEN_HAS_DATA
    ensures var q := After(g, p, Needed(g, LengthAt(m, g, p)));
      && q < Slots(g)
      && Sized(ClearTokens(m, g, head, q), g)
      && Decode(ClearTokens(m, g, head, q), g, q, tail) == Decode(m, g, q, tail)
      && (Clean(m, g, head, tail) ==> Clean(ClearTokens(m, g, head, q), g, q, tail))
  {
    FirstRecord(m, g, p, tail);
    var n := Needed(g, LengthAt(m, g, p));
    DistBetween(g, head, p, tail, n);
    GetKeepsRest(m, g, head, After(g, p, n), tail);
  }

  /** Where a reader that starts at p stops: at the first slot that holds data, or at t. */
  ghost function SkipTo(m: seq<Byte>, g: Geo, p: nat, t: nat): (q: nat)
    requires p < Slots(g) && t < Slots(g)
    ensures q < Slots(g) && Dist(g, p, q) + Dist(g, q, t) == Dist(g, p, t)
    decreases Dist(g, p, t)
  {
    if p == t || Token(m, g, p) == TOKEN_HAS_DATA then p else SkipTo(m, g, After(g, p, 1), t)
  }

  /**
   How far a get moves head, which was followed by the records before: over the skip marks and the slots of
   the first record, and never past the tail.
   */
  ghost predicate HeadMoves(m: seq<Byte>, g: Geo, head: nat, tail: nat, newHead: nat, before: seq<Record>)
    requires g.ns > HEADER && Positions(g, head, tail)
  {
    && newHead < Slots(g)
    && Dist(g, head, newHead) + Dist(g, newHead, tail) == Dist(g, head, tail)
    && Dist(g, head, newHead) ==
         Dist(g, head, SkipTo(m, g, head, tail)) + (if before == [] then 0 else Needed(g, |before[0].data|))
    && (before == [] ==> newHead == tail)
  }

  lemma RecordMovesHead(m: seq<Byte>, g: Geo, head: nat, p: nat, tail: nat)
    requires Sized(m, g) && Positions(g, head, tail) && p == SkipTo(m, g, head, tail) != tail
    requires Token(m, g, p) == TOKEN_HAS_DATA && Decode(m, g, head, tail) == Decode(m, g, p, tail)
    requires Decode(m, g, p, tail).Some?
    ensures HeadMoves(m, g, head, tail, After(g, p, Needed(g, LengthAt(m, g, p))), Decode(m, g, head, tail).value)
  {
    FirstRecord(m, g, p, tail);
    DistBetween(g, head, p, tail, Needed(g, LengthAt(m, g, p)));
  }

  lemma DistBetween(g: Geo, head: nat, p: nat, tail: nat, n: nat)
    requires head < Slots(g) && p < Slots(g) && tail < Slots(g) && p + n <= Slots(g) && 0 < n <= Dist(g, p, tail)
    requires Dist(g, head, p) + Dist(g, p, tail) == Dist(g, head, tail)
    ensures Dist(g, head, After(g, p, n)) + Dist(g, After(g, p, n), tail) == Dist(g, head, tail)
    ensures Dist(g, head, After(g, p, n)) == Dist(g, head, p) + n
  {
  }

  /** All that a get guarantees which ran over skip marks up to the tail. */
  lemma GetNothing(m: seq<Byte>, g: Geo, head: nat, tail: nat)
    requires Sized(m, g) && Positions(g, head, tail)
    ensures Decode(m, g, tail, tail) == Some([])
    ensures Sized(ClearTokens(m, g, head, tail), g)
    ensures Clean(m, g, head, tail) ==> Clean(ClearTokens(m, g, head, tail), g, tail, tail)
  {
    assert Dist(g, tail, tail) == 0;
    GetKeepsRest(m, g, head, tail, tail);
  }

  /** A record left behind without clearing keeps its token outside [head, tail). */
  lemma StaleToken(m: seq<Byte>, g: Geo, p: nat, head: nat, tail: nat)
    requires p < Slots(g) && Positions(g, head, tail) && p != tail && Token(m, g, p) == TOKEN_HAS_DATA
    requires exists n: nat :: 0 < n <= Dist(g, p, tail) && p + n <= Slots(g) && head == After(g, p, n)
    ensures !Clean(m, g, head, tail)
  {
    assert !InUse(g, head, tail, p);
  }
}
