/** Every step of the shared ring that is not a hazard keeps the invariant. */
module RingSteps {
  import opened Common
  import opened RingLayout
  import opened RingReserve
  import opened RingMachine
  import opened RingInvariant

  // ----- the other threads

  lemma InFlightKept(s: State, s': State, t: nat, u: nat, i: nat)
    requires Shape(s) && Shape(s') && Rely(s, s', t) && u != t && InFlight(s, u, i)
    ensures InFlight(s', u, i) && s'.log[i] == s.log[i]
  {
    assert DoneKept(s, s', t, i);
  }

  /** Slots of somebody else's reservation in flight stay as they are. */
  lemma FlightSlot(s: State, s': State, t: nat, u: nat, i: nat, x: nat)
    requires SharedOk(s) && Shape(s') && Rely(s, s', t) && u != t && InFlight(s, u, i)
    requires x < S(s) && Covers(s.g, s.log[i], x)
    ensures s'.chunk[x] == s.chunk[x] && s'.length[x] == s.length[x] && s'.token[x] == s.token[x]
  {
    assert Owns(s, i, x) && Untouched(s, s', t, x);
  }

  lemma MarkedKept(s: State, s': State, t: nat, u: nat, i: nat, end: nat)
    requires SharedOk(s) && Shape(s') && Rely(s, s', t) && u != t && InFlight(s, u, i) && Marked(s, i, end)
    ensures s'.log[i] == s.log[i] && Marked(s', i, end)
  {
    assert EntryOk(s, i);
    forall y | 0 <= y < S(s')
      ensures MarkOk(s', i, end, y)
    {
      assert MarkOk(s, i, end, y);
      if Covers(s.g, s.log[i], y) {
        FlightSlot(s, s', t, u, i, y);
      }
    }
  }

  lemma WrittenKept(s: State, s': State, t: nat, u: nat, i: nat, k: nat)
    requires SharedOk(s) && Shape(s') && Rely(s, s', t) && u != t && InFlight(s, u, i)
    requires k <= |s.log[i].rec| && Written(s, i, k)
    ensures s'.log[i] == s.log[i] && Written(s', i, k)
  {
    assert EntryOk(s, i);
    forall j | 0 <= j < k
      ensures ChunkOk(s', i, j)
    {
      assert ChunkOk(s, i, j);
      FlightSlot(s, s', t, u, i, s.log[i].start.slot + j);
    }
  }

  lemma OtherPutKept(s: State, s': State, t: nat, u: nat, pc: Pc)
    requires SharedOk(s) && Shape(s') && Rely(s, s', t) && u != t && PutOk(s, u, pc)
    ensures PutOk(s', u, pc)
  {
    match pc {
      case PutMark(i, x) =>
        InFlightKept(s, s', t, u, i);
        MarkedKept(s, s', t, u, i, x);
      case PutLength(i) =>
        InFlightKept(s, s', t, u, i);
        MarkedKept(s, s', t, u, i, S(s));
      case PutChunk(i, k) =>
        InFlightKept(s, s', t, u, i);
        MarkedKept(s, s', t, u, i, S(s));
        WrittenKept(s, s', t, u, i, k);
        assert EntryOk(s, i);
        FlightSlot(s, s', t, u, i, s.log[i].start.slot);
      case PutToken(i) =>
        InFlightKept(s, s', t, u, i);
        MarkedKept(s, s', t, u, i, S(s));
        WrittenKept(s, s', t, u, i, |s.log[i].rec|);
        assert EntryOk(s, i);
        FlightSlot(s, s', t, u, i, s.log[i].start.slot);
      case _ =>
    }
  }

  lemma FrontKept(s: State, s': State, t: nat, p: Pos)
    requires SharedOk(s) && Shape(s') && Chain(s') && Rely(s, s', t) && s'.head == s.head && AtFront(s, p)
    ensures AtFront(s', p)
  {
    if Claimed(s') < |s'.log| {
      assert EntryOk(s', Claimed(s'));
    }
  }

  lemma RecordKept(s: State, s': State, t: nat, p: Pos)
    requires SharedOk(s) && Shape(s') && Rely(s, s', t) && s'.head == s.head && AtRecord(s, p)
    ensures AtRecord(s', p) && s'.log[Claimed(s')] == s.log[Claimed(s)]
  {
    assert DoneKept(s, s', t, Claimed(s));
  }

  lemma TakenKept(s: State, s': State, t: nat, u: nat, i: nat)
    requires Shape(s) && Shape(s') && Rely(s, s', t) && Taken(s, u, i)
    ensures Taken(s', u, i) && s'.log[i] == s.log[i]
  {
    assert DoneKept(s, s', t, i);
  }

  lemma CopyKept(s: State, s': State, t: nat, u: nat, i: nat)
    requires SharedOk(s) && Shape(s') && Rely(s, s', t) && u != t && Taken(s, u, i)
    requires Written(s, i, |s.log[i].rec|)
    requires forall x {:trigger Owns(s, i, x)} :: 0 <= x < S(s) ==> Owns(s, i, x)
    ensures s'.log[i] == s.log[i] && Written(s', i, |s'.log[i].rec|)
    ensures forall x {:trigger Owns(s', i, x)} :: 0 <= x < S(s') ==> Owns(s', i, x)
  {
    forall x | 0 <= x < S(s')
      ensures Owns(s', i, x)
    {
      assert Owns(s, i, x) && Untouched(s, s', t, x);
    }
    assert EntryOk(s, i);
    forall j | 0 <= j < |s'.log[i].rec|
      ensures ChunkOk(s', i, j)
    {
      assert ChunkOk(s, i, j);
      var x := s.log[i].start.slot + j;
      assert Owns(s, i, x) && Untouched(s, s', t, x);
    }
  }

  lemma ClearKept(s: State, s': State, t: nat, u: nat, i: nat, c: Pos)
    requires SharedOk(s) && Shape(s') && Rely(s, s', t) && u != t && Taken(s, u, i)
    requires forall x {:trigger Remains(s, i, c, x)} :: 0 <= x < S(s) ==> Remains(s, i, c, x)
    ensures s'.log[i] == s.log[i]
    ensures forall x {:trigger Remains(s', i, c, x)} :: 0 <= x < S(s') ==> Remains(s', i, c, x)
  {
    forall x | 0 <= x < S(s')
      ensures Remains(s', i, c, x)
    {
      assert Remains(s, i, c, x) && Untouched(s, s', t, x);
    }
  }

  lemma OtherGetKept(s: State, s': State, t: nat, u: nat, pc: Pc)
    requires SharedOk(s) && Shape(s') && Chain(s') && Rely(s, s', t) && u != t && GetOk(s, u, pc)
    ensures GetOk(s', u, pc)
  {
    match pc {
      case GetEnd(from, head) => if s'.head == from { FrontKept(s, s', t, head); }
      case GetToken(from, head) => if s'.head == from { FrontKept(s, s', t, head); }
      case GetAgain(from, head) => if s'.head == from { FrontKept(s, s', t, head); }
      case GetLength(from, head) => if s'.head == from { RecordKept(s, s', t, head); }
      case GetRoom(from, head, n) => if s'.head == from { RecordKept(s, s', t, head); }
      case GetCas(from, head, n) => if s'.head == from { RecordKept(s, s', t, head); }
      case GetCopy(i, from, head, n, got) =>
        TakenKept(s, s', t, u, i);
        CopyKept(s, s', t, u, i);
      case GetClear(i, c, end, got) =>
        TakenKept(s, s', t, u, i);
        ClearKept(s, s', t, u, i, c);
      case _ =>
    }
  }

  lemma OthersKept(s: State, s': State, t: nat, pc: Pc)
    requires Inv(s) && SharedOk(s') && Rely(s, s', t) && t < |s.threads| && s'.threads == s.threads[t := pc]
    requires PutOk(s', t, pc) && GetOk(s', t, pc)
    ensures Inv(s')
  {
    forall u | 0 <= u < |s'.threads|
      ensures ThreadOk(s', u)
    {
      if u != t {
        assert ThreadOk(s, u);
        OtherPutKept(s, s', t, u, s.threads[u]);
        OtherGetKept(s, s', t, u, s.threads[u]);
      }
    }
  }

  // ----- steps that only read

  lemma SharedFrame(s: State, t: nat, pc: Pc)
    requires SharedOk(s) && t < |s.threads|
    ensures SharedOk(Set(s, t, pc)) && Rely(s, Set(s, t, pc), t)
  {
    var s' := Set(s, t, pc);
    forall i | 0 <= i < |s'.log|
      ensures EntryOk(s', i) && DoneKept(s, s', t, i)
    {
      assert EntryOk(s, i);
    }
    forall i, j | 0 <= i < j < |s'.log|
      ensures Ordered(s', i, j)
    {
      assert Ordered(s, i, j);
    }
    forall x | 0 <= x < S(s')
      ensures SlotOk(s', x) && Untouched(s, s', t, x)
    {
      assert SlotOk(s, x);
    }
    forall i, x | Claimed(s') <= i < |s'.log| && 0 <= x < S(s')
      ensures Owns(s', i, x) && SkipOk(s', i, x)
    {
      assert Owns(s, i, x) && SkipOk(s, i, x);
    }
    forall i | Claimed(s') <= i < |s'.log|
      ensures CellOk(s', i)
    {
      assert CellOk(s, i);
      assert EntryOk(s, i);
      if s.done[i] {
        WrittenFrame(s, s', i, |s.log[i].rec|);
      }
    }
  }

  lemma WrittenFrame(s: State, s': State, i: nat, k: nat)
    requires Shape(s) && Shape(s') && i < |s.log| && i < |s'.log| && s'.log[i] == s.log[i]
    requires k <= |s.log[i].rec| && Written(s, i, k)
    requires s'.chunk == s.chunk
    ensures Written(s', i, k)
  {
    forall j | 0 <= j < k
      ensures ChunkOk(s', i, j)
    {
      assert ChunkOk(s, i, j);
    }
  }

  lemma MarkedFrame(s: State, s': State, i: nat, end: nat)
    requires Shape(s) && Shape(s') && i < |s.log| && i < |s'.log| && s'.log[i] == s.log[i] && s'.g == s.g
    requires Marked(s, i, end) && s'.token == s.token
    ensures Marked(s', i, end)
  {
    forall y | 0 <= y < S(s')
      ensures MarkOk(s', i, end, y)
    {
      assert MarkOk(s, i, end, y);
    }
  }

  /** A step that changes only its thread. */
  lemma LocalStep(s: State, t: nat, pc: Pc)
    requires Inv(s) && t < |s.threads| && PutOk(s, t, pc) && GetOk(s, t, pc)
    ensures Inv(Set(s, t, pc))
  {
    SharedFrame(s, t, pc);
    LocalOk(s, t, pc);
    OthersKept(s, Set(s, t, pc), t, pc);
  }

  lemma LocalOk(s: State, t: nat, pc: Pc)
    requires SharedOk(s) && t < |s.threads| && PutOk(s, t, pc) && GetOk(s, t, pc)
    ensures Shape(Set(s, t, pc)) && PutOk(Set(s, t, pc), t, pc) && GetOk(Set(s, t, pc), t, pc)
  {
    var s' := Set(s, t, pc);
    match pc {
      case PutMark(i, x) => MarkedFrame(s, s', i, x);
      case PutLength(i) => MarkedFrame(s, s', i, S(s));
      case PutChunk(i, k) =>
        WrittenFrame(s, s', i, k);
        MarkedFrame(s, s', i, S(s));
      case PutToken(i) =>
        WrittenFrame(s, s', i, |s.log[i].rec|);
        MarkedFrame(s, s', i, S(s));
      case GetCopy(i, from, head, n, got) =>
        WrittenFrame(s, s', i, |s.log[i].rec|);
        forall x | 0 <= x < S(s')
          ensures Owns(s', i, x)
        {
          assert Owns(s, i, x);
        }
      case GetClear(i, c, end, got) =>
        forall x | 0 <= x < S(s')
          ensures Remains(s', i, c, x)
        {
          assert Remains(s, i, c, x);
        }
      case _ =>
    }
  }

  // ----- mq_put up to its CAS

  lemma FreeSlots(s: State, h: Pos, tl: Pos, n: nat)
    requires Shape(s) && h.slot < S(s) && tl.slot < S(s) && Within(h, tl) && LE(h, s.head)
    requires EmptyNodes(s.g, h.slot, tl.slot) >= n + RESERVE_BLOCK_COUNT
    ensures Free(s, h, tl, n)
  {
    UsedIsDistance(s.g, h.slot, tl.slot);
  }

  /** The new tail is computed right while the tail has not moved. */
  lemma NewTailFits(s: State, h: Pos, n: nat)
    requires Shape(s) && n > 0 && Free(s, h, s.tail, n)
    ensures Spare(s, s.tail, n)
    ensures var newTail := (s.tail.slot + n) % S(s);
      if newTail < s.tail.slot then s.head.lap == s.tail.lap && s.tail.slot > 0 && n < S(s) <= s.tail.slot + n
      else Room(s, s.tail, n, s.tail.slot, newTail)
  {
    WrapIsRemainder(s.tail.slot + n, S(s));
  }

  predicate Reads(s: State, pc: Pc) {
    pc.PutTail? || pc.PutFreeHead? || pc.PutFreeTail? || pc.PutNewTail? || pc.PutWrapHead?
    || (pc.PutCas? && s.tail.slot != pc.t.slot)
  }

  lemma PutReadsOk(s: State, t: nat, junk: nat)
    requires Shape(s) && t < |s.threads| && Reads(s, s.threads[t]) && PutOk(s, t, s.threads[t])
    ensures var pc' := PutStep(s, t, s.threads[t], junk).threads[t]; PutOk(s, t, pc') && GetOk(s, t, pc')
    ensures PutStep(s, t, s.threads[t], junk) == Set(s, t, PutStep(s, t, s.threads[t], junk).threads[t])
  {
    match s.threads[t] {
      case PutFreeTail(rec, tl, h) =>
        if s.tail == tl && EmptyNodes(s.g, h.slot, s.tail.slot) >= |rec| + RESERVE_BLOCK_COUNT {
          FreeSlots(s, h, tl, |rec|);
        }
      case PutNewTail(rec, tl, h) => if s.tail == tl { NewTailFits(s, h, |rec|); }
      case _ =>
    }
  }

  lemma PutReads(s: State, t: nat, junk: nat)
    requires Inv(s) && t < |s.threads| && Reads(s, s.threads[t])
    ensures Inv(PutStep(s, t, s.threads[t], junk))
  {
    assert ThreadOk(s, t);
    PutReadsOk(s, t, junk);
    LocalStep(s, t, PutStep(s, t, s.threads[t], junk).threads[t]);
  }

  // ----- the CAS on the tail

  lemma HeadBefore(s: State, i: nat)
    requires Shape(s) && Chain(s) && Claimed(s) <= i < |s.log|
    ensures LE(s.head, s.log[i].first) && LE(End(s.log[i]), s.tail)
  {
    var c := Claimed(s);
    assert EntryOk(s, i) && EntryOk(s, c);
    if c < i {
      assert Ordered(s, c, i);
    }
  }

  /** A reservation behind the tail takes no slot of an unclaimed one. */
  lemma LiveDisjoint(s: State, e: Entry, i: nat, x: nat)
    requires Shape(s) && Chain(s) && Claimed(s) <= i < |s.log|
    requires e.first == s.tail && Within(s.head, End(e)) && e.start.slot + |e.rec| < S(s)
    requires Wraps(e) ==> e.start == Pos(e.first.lap + 1, 0)
    requires Covers(s.g, e, x)
    ensures !Covers(s.g, s.log[i], x)
  {
    HeadBefore(s, i);
    assert EntryOk(s, i);
  }

  ghost predicate Reserving(s: State, t: nat) {
    && Inv(s) && t < |s.threads| && s.threads[t].PutCas?
    && s.tail == s.threads[t].t && Room(s, s.tail, |s.threads[t].rec|, s.threads[t].idx, s.threads[t].newTail)
    && s.threads[t].rec != []
    && forall x :: 0 <= x < |s.owner| ==> !Overruns(s, NewEntry(t, s.threads[t]), x)
  }

  lemma ReservedShape(s: State, t: nat)
    requires Reserving(s, t)
    ensures var s' := AfterReserve(s, t, s.threads[t]);
      && Shape(s') && Chain(s') && s'.tail == End(NewEntry(t, s.threads[t]))
      && Within(s.head, s'.tail) && LE(s.tail, s'.tail)
  {
    var s' := AfterReserve(s, t, s.threads[t]);
    var n := |s.log|;
    forall i | 0 <= i < |s'.log|
      ensures EntryOk(s', i)
    {
      assert i < n ==> EntryOk(s, i);
    }
    forall i, j | 0 <= i < j < |s'.log|
      ensures Ordered(s', i, j)
    {
      assert EntryOk(s, i);
      assert j < n ==> Ordered(s, i, j);
    }
  }

  /** The slots of the new reservation are held by nobody and read as empty. */
  lemma FreshSlot(s: State, t: nat, x: nat)
    requires Reserving(s, t) && Covers(s.g, NewEntry(t, s.threads[t]), x)
    ensures s.owner[x].None? && s.token[x] == TOKEN_NO_DATA
  {
    ReservedShape(s, t);
    var e := NewEntry(t, s.threads[t]);
    assert SlotOk(s, x) && !Overruns(s, e, x);
    if s.owner[x].Some? {
      LiveDisjoint(s, e, s.owner[x].value, x);
    }
  }

  lemma ReservedOwners(s: State, t: nat)
    requires Reserving(s, t)
    ensures var s' := AfterReserve(s, t, s.threads[t]); Shape(s') && Owners(s')
  {
    ReservedShape(s, t);
    var e := NewEntry(t, s.threads[t]);
    var s' := AfterReserve(s, t, s.threads[t]);
    forall x | 0 <= x < S(s')
      ensures SlotOk(s', x)
    {
      assert SlotOk(s, x);
    }
    forall i, x | Claimed(s') <= i < |s'.log| && 0 <= x < S(s')
      ensures Owns(s', i, x)
    {
      if i < |s.log| {
        assert Owns(s, i, x);
        if Covers(s.g, e, x) {
          LiveDisjoint(s, e, i, x);
        }
      }
    }
  }

  lemma ReservedCells(s: State, t: nat)
    requires Reserving(s, t)
    ensures var s' := AfterReserve(s, t, s.threads[t]); Shape(s') && Cells(s')
  {
    ReservedShape(s, t);
    var s' := AfterReserve(s, t, s.threads[t]);
    forall i | Claimed(s') <= i < |s'.log|
      ensures CellOk(s', i)
    {
      if i < |s.log| {
        assert CellOk(s, i);
        if s.done[i] {
          WrittenFrame(s, s', i, |s.log[i].rec|);
        }
      } else {
        FreshSlot(s, t, s'.log[i].start.slot);
      }
    }
    forall i, x | Claimed(s') <= i < |s'.log| && 0 <= x < S(s')
      ensures SkipOk(s', i, x)
    {
      if i < |s.log| {
        assert SkipOk(s, i, x);
      } else if Covers(s.g, s'.log[i], x) {
        FreshSlot(s, t, x);
      }
    }
  }

  lemma ReservedRely(s: State, t: nat)
    requires Reserving(s, t)
    ensures var s' := AfterReserve(s, t, s.threads[t]); Shape(s') && Rely(s, s', t)
  {
    ReservedShape(s, t);
    var s' := AfterReserve(s, t, s.threads[t]);
    forall x | 0 <= x < S(s)
      ensures Untouched(s, s', t, x)
    {
      if Covers(s.g, NewEntry(t, s.threads[t]), x) {
        FreshSlot(s, t, x);
      }
    }
    forall i | 0 <= i < |s.log|
      ensures DoneKept(s, s', t, i)
    {
    }
  }

  lemma ReserveKeeps(s: State, t: nat)
    requires Reserving(s, t)
    ensures Inv(AfterReserve(s, t, s.threads[t]))
  {
    var s' := AfterReserve(s, t, s.threads[t]);
    ReservedShape(s, t);
    ReservedOwners(s, t);
    ReservedCells(s, t);
    ReservedRely(s, t);
    OthersKept(s, s', t, s'.threads[t]);
  }

  // ----- stores of a writer

  /** s' differs from s in the cells of slot x, which the writer t of reservation i holds, and in done[i]. */
  ghost predicate Stores(s: State, s': State, t: nat, i: nat, x: nat)
    requires Shape(s)
  {
    && InFlight(s, t, i) && x < S(s) && Covers(s.g, s.log[i], x)
    && s'.(token := s.token, length := s.length, chunk := s.chunk, done := s.done, threads := s.threads) == s
    && |s'.token| == |s'.length| == |s'.chunk| == S(s) && |s'.done| == |s.done|
    && (forall y :: 0 <= y < S(s) && y != x ==>
          s'.token[y] == s.token[y] && s'.length[y] == s.length[y] && s'.chunk[y] == s.chunk[y])
    && (forall j :: 0 <= j < |s.done| && j != i ==> s'.done[j] == s.done[j])
  }

  lemma StoreShape(s: State, s': State, t: nat, i: nat, x: nat)
    requires SharedOk(s) && Stores(s, s', t, i, x)
    ensures Shape(s') && Chain(s') && Owners(s')
  {
    forall j | 0 <= j < |s'.log|
      ensures EntryOk(s', j)
    {
      assert EntryOk(s, j);
    }
    forall j, k | 0 <= j < k < |s'.log|
      ensures Ordered(s', j, k)
    {
      assert Ordered(s, j, k);
    }
    forall y | 0 <= y < S(s')
      ensures SlotOk(s', y)
    {
      assert SlotOk(s, y) && Owns(s, i, x);
    }
    forall j, y | Claimed(s') <= j < |s'.log| && 0 <= y < S(s')
      ensures Owns(s', j, y)
    {
      assert Owns(s, j, y);
    }
  }

  lemma StoreCells(s: State, s': State, t: nat, i: nat, x: nat)
    requires SharedOk(s) && Stores(s, s', t, i, x) && Shape(s')
    requires CellOk(s', i) && forall y {:trigger SkipOk(s', i, y)} :: 0 <= y < S(s') ==> SkipOk(s', i, y)
    ensures Cells(s')
  {
    assert Owns(s, i, x);
    forall j | Claimed(s') <= j < |s'.log|
      ensures CellOk(s', j)
    {
      if j != i {
        assert CellOk(s, j) && EntryOk(s, j);
        StoreElsewhere(s, s', t, i, x, j);
      }
    }
    forall j, y | Claimed(s') <= j < |s'.log| && 0 <= y < S(s')
      ensures SkipOk(s', j, y)
    {
      assert SkipOk(s, j, y) && Owns(s, j, x);
    }
  }

  lemma StoreElsewhere(s: State, s': State, t: nat, i: nat, x: nat, j: nat)
    requires SharedOk(s) && Stores(s, s', t, i, x) && Shape(s')
    requires Claimed(s) <= j < |s.log| && j != i && CellOk(s, j)
    ensures CellOk(s', j)
  {
    assert Owns(s, i, x) && Owns(s, j, x) && EntryOk(s, j);
    if s.done[j] {
      forall k | 0 <= k < |s.log[j].rec|
        ensures ChunkOk(s', j, k)
      {
        assert ChunkOk(s, j, k);
      }
    }
  }

  lemma StoreRely(s: State, s': State, t: nat, i: nat, x: nat)
    requires SharedOk(s) && Stores(s, s', t, i, x) && Shape(s')
    ensures Rely(s, s', t)
  {
    assert Owns(s, i, x);
    forall y | 0 <= y < S(s)
      ensures Untouched(s, s', t, y)
    {
    }
    forall j | 0 <= j < |s.log|
      ensures DoneKept(s, s', t, j)
    {
    }
  }

  lemma StoreKeeps(s: State, s': State, t: nat, i: nat, x: nat, pc: Pc)
    requires Inv(s) && t < |s.threads| && s'.threads == s.threads[t := pc]
    requires Stores(s, s', t, i, x) && Shape(s')
    requires CellOk(s', i) && forall y {:trigger SkipOk(s', i, y)} :: 0 <= y < S(s') ==> SkipOk(s', i, y)
    requires PutOk(s', t, pc) && GetOk(s', t, pc)
    ensures Inv(s')
  {
    StoreShape(s, s', t, i, x);
    StoreCells(s, s', t, i, x);
    StoreRely(s, s', t, i, x);
    OthersKept(s, s', t, pc);
  }

  lemma MarkStored(s: State, s': State, t: nat, i: nat, x: nat)
    requires SharedOk(s) && InFlight(s, t, i) && Wraps(s.log[i]) && s.log[i].first.slot <= x < S(s) && Marked(s, i, x)
    requires Shape(s') && Stores(s, s', t, i, x) && s'.token[x] == TOKEN_SKIPPED && s'.done == s.done
    ensures Marked(s', i, x + 1)
    ensures forall y {:trigger SkipOk(s', i, y)} :: 0 <= y < S(s') ==> SkipOk(s', i, y)
  {
    var end := x + 1;
    forall y | 0 <= y < S(s')
      ensures MarkOk(s', i, end, y) && SkipOk(s', i, y)
    {
      assert MarkOk(s, i, x, y) && SkipOk(s, i, y);
    }
    assert Marked(s', i, end);
  }

  lemma MarkKeeps(s: State, t: nat, junk: nat)
    requires Inv(s) && t < |s.threads| && s.threads[t].PutMark?
    ensures Inv(PutStep(s, t, s.threads[t], junk))
  {
    assert ThreadOk(s, t);
    var i, x := s.threads[t].i, s.threads[t].x;
    var s' := PutStep(s, t, s.threads[t], junk);
    assert EntryOk(s, i) && CellOk(s, i);
    assert Stores(s, s', t, i, x);
    MarkStored(s, s', t, i, x);
    StoreKeeps(s, s', t, i, x, s'.threads[t]);
  }

  lemma LengthKeeps(s: State, t: nat, junk: nat)
    requires Inv(s) && t < |s.threads| && s.threads[t].PutLength?
    ensures Inv(PutStep(s, t, s.threads[t], junk))
  {
    assert ThreadOk(s, t);
    var i := s.threads[t].i;
    var s' := PutStep(s, t, s.threads[t], junk);
    assert EntryOk(s, i) && CellOk(s, i);
    assert Stores(s, s', t, i, s.log[i].start.slot);
    forall y | 0 <= y < S(s')
      ensures SkipOk(s', i, y)
    {
      assert SkipOk(s, i, y);
    }
    MarkedFrame(s, s', i, S(s));
    StoreKeeps(s, s', t, i, s.log[i].start.slot, s'.threads[t]);
  }

  lemma ChunkStored(s: State, s': State, t: nat, i: nat, k: nat)
    requires SharedOk(s) && InFlight(s, t, i) && k < |s.log[i].rec| && Written(s, i, k)
    requires Shape(s') && Stores(s, s', t, i, s.log[i].start.slot + k)
    requires s'.chunk[s.log[i].start.slot + k] == s.log[i].rec[k] && s'.done == s.done
    requires k == 0 ==> s'.token == s.token
    ensures CellOk(s', i) && Written(s', i, k + 1)
    ensures forall y {:trigger SkipOk(s', i, y)} :: 0 <= y < S(s') ==> SkipOk(s', i, y)
  {
    assert EntryOk(s, i) && CellOk(s, i);
    forall y | 0 <= y < S(s')
      ensures SkipOk(s', i, y)
    {
      assert SkipOk(s, i, y);
    }
    forall j | 0 <= j < k + 1
      ensures ChunkOk(s', i, j)
    {
      assert j < k ==> ChunkOk(s, i, j);
    }
  }

  /** The slots of the payload are not skipped ones. */
  lemma ChunkNotSkipped(s: State, s': State, t: nat, i: nat, k: nat)
    requires SharedOk(s) && InFlight(s, t, i) && k < |s.log[i].rec| && Marked(s, i, S(s))
    requires Shape(s') && Stores(s, s', t, i, s.log[i].start.slot + k)
    ensures Marked(s', i, S(s'))
  {
    assert EntryOk(s, i);
    forall y | 0 <= y < S(s')
      ensures MarkOk(s', i, S(s'), y)
    {
      assert MarkOk(s, i, S(s), y);
    }
  }

  lemma ChunkKeeps(s: State, t: nat, junk: nat)
    requires Inv(s) && t < |s.threads| && s.threads[t].PutChunk?
    ensures Inv(PutStep(s, t, s.threads[t], junk))
  {
    assert ThreadOk(s, t);
    var i, k := s.threads[t].i, s.threads[t].k;
    if k < |s.log[i].rec| {
      var s' := PutStep(s, t, s.threads[t], junk);
      var x := s.log[i].start.slot + k;
      assert EntryOk(s, i);
      assert Stores(s, s', t, i, x);
      ChunkStored(s, s', t, i, k);
      ChunkNotSkipped(s, s', t, i, k);
      StoreKeeps(s, s', t, i, x, s'.threads[t]);
    } else {
      LocalStep(s, t, PutToken(i));
    }
  }

  lemma TokenKeeps(s: State, t: nat, junk: nat)
    requires Inv(s) && t < |s.threads| && s.threads[t].PutToken?
    ensures Inv(PutStep(s, t, s.threads[t], junk))
  {
    assert ThreadOk(s, t);
    var i := s.threads[t].i;
    var s' := PutStep(s, t, s.threads[t], junk);
    assert EntryOk(s, i) && CellOk(s, i);
    assert Stores(s, s', t, i, s.log[i].start.slot);
    forall y | 0 <= y < S(s')
      ensures SkipOk(s', i, y)
    {
      assert MarkOk(s, i, S(s), y);
    }
    WrittenFrame(s, s', i, |s.log[i].rec|);
    StoreKeeps(s, s', t, i, s.log[i].start.slot, Idle);
  }

  lemma PutKeeps(s: State, t: nat, patient: bool, junk: nat)
    requires Inv(s) && t < |s.threads| && IsPut(s.threads[t]) && !Hazard(s, Go(t, patient, junk))
    ensures Inv(PutStep(s, t, s.threads[t], junk))
  {
    assert ThreadOk(s, t);
    match s.threads[t] {
      case PutMark(_, _) => MarkKeeps(s, t, junk);
      case PutLength(_) => LengthKeeps(s, t, junk);
      case PutChunk(_, _) => ChunkKeeps(s, t, junk);
      case PutToken(_) => TokenKeeps(s, t, junk);
      case PutCas(_, tl, _, _) => if s.tail.slot == tl.slot { ReserveKeeps(s, t); } else { PutReads(s, t, junk); }
      case _ => PutReads(s, t, junk);
    }
  }

  // ----- mq_get up to its CAS

  /** Slots of positions less than a lap apart differ. */
  lemma BeforeTail(s: State, p: Pos)
    requires SharedOk(s) && Claimed(s) < |s.log| && AtFront(s, p)
    ensures p.slot < S(s) && p.slot != s.tail.slot && LE(s.head, p) && LE(p, s.tail)
  {
    assert EntryOk(s, Claimed(s));
  }

  lemma RoomForRecord(s: State, p: Pos)
    requires SharedOk(s) && AtRecord(s, p)
    ensures UsedNodes(s.g, p.slot, s.tail.slot) >= |s.log[Claimed(s)].rec|
  {
    assert EntryOk(s, Claimed(s));
    UsedIsDistance(s.g, p.slot, s.tail.slot);
  }

  lemma TokenTells(s: State, p: Pos)
    requires SharedOk(s) && AtFront(s, p) && Claimed(s) < |s.log|
    ensures p.slot < S(s)
    ensures s.token[p.slot] == TOKEN_HAS_DATA ==> AtRecord(s, p)
    ensures s.token[p.slot] != TOKEN_HAS_DATA && s.token[p.slot] != TOKEN_NO_DATA ==> AtFront(s, AddPos(s.g, p, 1))
  {
    var c := Claimed(s);
    assert EntryOk(s, c) && CellOk(s, c);
    assert SkipOk(s, c, p.slot);
  }

  lemma EndOk(s: State, t: nat, patient: bool)
    requires SharedOk(s) && t < |s.threads| && s.threads[t].GetEnd? && GetOk(s, t, s.threads[t])
    ensures var pc' := GetStep(s, t, s.threads[t], patient).threads[t]; PutOk(s, t, pc') && GetOk(s, t, pc')
  {
    var from, head := s.threads[t].from, s.threads[t].head;
    if s.head == from && Claimed(s) < |s.log| {
      BeforeTail(s, head);
    }
  }

  lemma ScanOk(s: State, t: nat, patient: bool)
    requires SharedOk(s) && t < |s.threads| && GetOk(s, t, s.threads[t]) && !Hazard(s, Go(t, patient, 0))
    requires Scans(s.threads[t])
    ensures var pc' := GetStep(s, t, s.threads[t], patient).threads[t]; PutOk(s, t, pc') && GetOk(s, t, pc')
    ensures GetStep(s, t, s.threads[t], patient) == Set(s, t, GetStep(s, t, s.threads[t], patient).threads[t])
  {
    match s.threads[t] {
      case GetHead => if Claimed(s) < |s.log| { assert EntryOk(s, Claimed(s)); }
      case GetEnd(from, head) => EndOk(s, t, patient);
      case GetToken(from, head) => if s.head == from { TokenTells(s, head); }
      case GetAgain(from, head) => if s.head == from { TokenTells(s, head); }
      case _ =>
    }
  }

  lemma MeasureOk(s: State, t: nat, patient: bool)
    requires SharedOk(s) && t < |s.threads| && GetOk(s, t, s.threads[t])
    requires var pc := s.threads[t];
      pc.GetLength? || pc.GetRoom? || ((pc.GetCas? || pc.GetNone?) && s.head.slot != pc.from.slot)
    ensures var pc' := GetStep(s, t, s.threads[t], patient).threads[t]; PutOk(s, t, pc') && GetOk(s, t, pc')
    ensures GetStep(s, t, s.threads[t], patient) == Set(s, t, GetStep(s, t, s.threads[t], patient).threads[t])
  {
    match s.threads[t] {
      case GetLength(from, head) => if s.head == from { assert CellOk(s, Claimed(s)); }
      case GetRoom(from, head, n) => if s.head == from { RoomForRecord(s, head); }
      case _ =>
    }
  }

  // ----- the CAS on the head

  ghost predicate Claiming(s: State, t: nat) {
    && Inv(s) && t < |s.threads| && s.threads[t].GetCas? && s.head == s.threads[t].from
    && AtRecord(s, s.threads[t].head) && s.threads[t].n == |s.log[Claimed(s)].rec|
  }

  lemma ClaimShared(s: State, t: nat, patient: bool)
    requires Claiming(s, t)
    ensures var s' := GetStep(s, t, s.threads[t], patient);
      SharedOk(s') && s'.head == End(s.log[Claimed(s)]) && s'.head != s.head
  {
    var s' := GetStep(s, t, s.threads[t], patient);
    var c := Claimed(s);
    assert EntryOk(s, c);
    forall i | 0 <= i < |s'.log|
      ensures EntryOk(s', i)
    {
      assert EntryOk(s, i);
    }
    forall i, j | 0 <= i < j < |s'.log|
      ensures Ordered(s', i, j)
    {
      assert Ordered(s, i, j);
    }
    forall x | 0 <= x < S(s')
      ensures SlotOk(s', x)
    {
      assert SlotOk(s, x);
    }
    forall i, x | Claimed(s') <= i < |s'.log| && 0 <= x < S(s')
      ensures Owns(s', i, x) && SkipOk(s', i, x)
    {
      assert Owns(s, i, x) && SkipOk(s, i, x);
    }
    forall i | Claimed(s') <= i < |s'.log|
      ensures CellOk(s', i)
    {
      assert CellOk(s, i);
      if s.done[i] {
        WrittenFrame(s, s', i, |s.log[i].rec|);
      }
    }
  }

  lemma ClaimKeeps(s: State, t: nat, patient: bool)
    requires Claiming(s, t)
    ensures Inv(GetStep(s, t, s.threads[t], patient))
  {
    var s' := GetStep(s, t, s.threads[t], patient);
    var c := Claimed(s);
    ClaimShared(s, t, patient);
    assert EntryOk(s, c) && CellOk(s, c);
    forall i | 0 <= i < |s.log|
      ensures DoneKept(s, s', t, i)
    {
    }
    forall x | 0 <= x < S(s)
      ensures Untouched(s, s', t, x) && Owns(s', c, x)
    {
      assert Owns(s, c, x);
    }
    WrittenFrame(s, s', c, |s.log[c].rec|);
    OthersKept(s, s', t, s'.threads[t]);
  }

  // ----- after the claim

  lemma CopyKeeps(s: State, t: nat, patient: bool)
    requires Inv(s) && t < |s.threads| && s.threads[t].GetCopy?
    ensures Inv(GetStep(s, t, s.threads[t], patient))
  {
    assert ThreadOk(s, t);
    var pc := s.threads[t];
    var i := pc.i;
    assert EntryOk(s, i);
    if |pc.got| < pc.n {
      assert ChunkOk(s, i, |pc.got|);
    } else {
      forall x | 0 <= x < S(s)
        ensures Remains(s, i, pc.from, x)
      {
        assert Owns(s, i, x);
      }
    }
    LocalStep(s, t, GetStep(s, t, pc, patient).threads[t]);
  }

  /** The cursor of the reset stands on a slot of the reservation until it is at the end. */
  lemma CursorCovers(s: State, i: nat, c: Pos)
    requires SharedOk(s) && i < |s.log| && CursorOk(s, s.log[i], c) && c.slot != End(s.log[i]).slot
    requires forall x {:trigger Remains(s, i, c, x)} :: 0 <= x < S(s) ==> Remains(s, i, c, x)
    ensures c.slot < S(s) && Covers(s.g, s.log[i], c.slot) && s.owner[c.slot] == Some(i)
    ensures CursorOk(s, s.log[i], AddPos(s.g, c, 1))
  {
    assert EntryOk(s, i);
    assert c.slot < S(s);
    assert Remains(s, i, c, c.slot);
  }

  lemma ClearShared(s: State, t: nat, patient: bool)
    requires Inv(s) && t < |s.threads| && s.threads[t].GetClear? && GetOk(s, t, s.threads[t])
    requires s.threads[t].c.slot != s.threads[t].end.slot
    ensures var s' := GetStep(s, t, s.threads[t], patient); SharedOk(s') && Rely(s, s', t)
  {
    var s' := GetStep(s, t, s.threads[t], patient);
    var i, x := s.threads[t].i, s.threads[t].c.slot;
    CursorCovers(s, i, s.threads[t].c);
    forall j | 0 <= j < |s'.log|
      ensures EntryOk(s', j) && DoneKept(s, s', t, j)
    {
      assert EntryOk(s, j);
    }
    forall j, k | 0 <= j < k < |s'.log|
      ensures Ordered(s', j, k)
    {
      assert Ordered(s, j, k);
    }
    forall y | 0 <= y < S(s')
      ensures SlotOk(s', y) && Untouched(s, s', t, y)
    {
      assert SlotOk(s, y);
    }
    forall j, y | Claimed(s') <= j < |s'.log| && 0 <= y < S(s')
      ensures Owns(s', j, y) && SkipOk(s', j, y)
    {
      assert Owns(s, j, y) && SkipOk(s, j, y) && Owns(s, j, x);
    }
    forall j | Claimed(s') <= j < |s'.log|
      ensures CellOk(s', j)
    {
      assert CellOk(s, j) && Owns(s, j, x) && EntryOk(s, j);
      if s.done[j] {
        WrittenFrame(s, s', j, |s.log[j].rec|);
      }
    }
  }

  lemma ClearKeeps(s: State, t: nat, patient: bool)
    requires Inv(s) && t < |s.threads| && s.threads[t].GetClear?
    ensures Inv(GetStep(s, t, s.threads[t], patient))
  {
    assert ThreadOk(s, t);
    var pc := s.threads[t];
    if pc.c.slot == pc.end.slot {
      LocalStep(s, t, Idle);
    } else {
      var s' := GetStep(s, t, pc, patient);
      ClearShared(s, t, patient);
      CursorCovers(s, pc.i, pc.c);
      assert EntryOk(s, pc.i);
      forall x | 0 <= x < S(s')
        ensures Remains(s', pc.i, AddPos(s.g, pc.c, 1), x)
      {
        assert Remains(s, pc.i, pc.c, x);
      }
      OthersKept(s, s', t, s'.threads[t]);
    }
  }

  predicate Scans(pc: Pc) {
    pc.GetHead? || pc.GetEnd? || pc.GetToken? || pc.GetMoved? || pc.GetAgain?
  }

  predicate Measures(s: State, pc: Pc) {
    pc.GetLength? || pc.GetRoom? || ((pc.GetCas? || pc.GetNone?) && s.head.slot != pc.from.slot)
  }

  lemma ScanKeeps(s: State, t: nat, patient: bool)
    requires Inv(s) && t < |s.threads| && Scans(s.threads[t]) && !Hazard(s, Go(t, patient, 0))
    ensures Inv(GetStep(s, t, s.threads[t], patient))
  {
    assert ThreadOk(s, t);
    ScanOk(s, t, patient);
    LocalStep(s, t, GetStep(s, t, s.threads[t], patient).threads[t]);
  }

  lemma MeasureKeeps(s: State, t: nat, patient: bool)
    requires Inv(s) && t < |s.threads| && Measures(s, s.threads[t])
    ensures Inv(GetStep(s, t, s.threads[t], patient))
  {
    assert ThreadOk(s, t);
    MeasureOk(s, t, patient);
    LocalStep(s, t, GetStep(s, t, s.threads[t], patient).threads[t]);
  }

  lemma GetKeeps(s: State, t: nat, patient: bool, junk: nat)
    requires Inv(s) && t < |s.threads| && !IsPut(s.threads[t]) && !s.threads[t].Idle?
    requires !Hazard(s, Go(t, patient, junk))
    ensures Inv(GetStep(s, t, s.threads[t], patient))
  {
    assert ThreadOk(s, t);
    if s.threads[t].GetCopy? {
      CopyKeeps(s, t, patient);
    } else if s.threads[t].GetClear? {
      ClearKeeps(s, t, patient);
    } else if Scans(s.threads[t]) {
      ScanKeeps(s, t, patient);
    } else if Measures(s, s.threads[t]) {
      MeasureKeeps(s, t, patient);
    } else {
      ClaimKeeps(s, t, patient);
    }
  }

  lemma StepKeeps(s: State, s': State, m: Move)
    requires Inv(s) && Step(s, s', m) && !Hazard(s, m)
    ensures Inv(s')
  {
    match m {
      case BeginPut(t, rec) => LocalStep(s, t, PutTail(rec));
      case BeginGet(t) => LocalStep(s, t, GetHead);
      case Go(t, patient, junk) =>
        if IsPut(s.threads[t]) {
          PutKeeps(s, t, patient, junk);
        } else {
          GetKeeps(s, t, patient, junk);
        }
    }
  }
}
