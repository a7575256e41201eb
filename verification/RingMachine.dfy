/**
 The ring with overlapping calls: any number of threads put and get, every access to the shared positions
 and to a slot is one step. A record is a sequence of chunks, one for each slot it takes.
 */
module RingMachine {
  import opened Common
  import opened RingLayout
  import opened RingReserve

  /** A position with the number of times the ring has been gone round; the program sees the slot only. */
  datatype Pos = Pos(lap: nat, slot: nat)

  /**
   One successful reservation, by one thread: the slots from first on, to the array's end if they are
   skipped, then those of the record from start on.
   */
  datatype Entry = Entry(rec: seq<int>, writer: nat, first: Pos, start: Pos)

  datatype Pc =
    | Idle
    // mq_put
    | PutTail(rec: seq<int>)                      // about to read tail_pos
    | PutFreeHead(rec: seq<int>, t: Pos)          // about to read head_pos for the number of free slots
    | PutFreeTail(rec: seq<int>, t: Pos, h: Pos)  // and tail_pos
    | PutNewTail(rec: seq<int>, t: Pos, h: Pos)   // about to read tail_pos for the new tail
    | PutWrapHead(rec: seq<int>, t: Pos)          // gone round: about to read head_pos
    | PutCas(rec: seq<int>, t: Pos, idx: nat, newTail: nat)
    | PutMark(i: nat, x: nat)                     // about to mark slot x as skipped
    | PutLength(i: nat)
    | PutChunk(i: nat, k: nat)
    | PutToken(i: nat)
    // mq_get
    | GetHead                                     // about to read head_pos
    | GetEnd(from: Pos, head: Pos)                // about to compare tail_pos with the local head
    | GetNone(from: Pos, head: Pos)               // end of queue behind skipped slots: about to move head_pos
    | GetToken(from: Pos, head: Pos)
    | GetMoved(from: Pos, head: Pos)              // no data yet: about to look whether head_pos moved
    | GetAgain(from: Pos, head: Pos)              // about to read the token once again
    | GetLength(from: Pos, head: Pos)
    | GetRoom(from: Pos, head: Pos, n: nat)       // about to read tail_pos for the number of used slots
    | GetCas(from: Pos, head: Pos, n: nat)
    | GetCopy(i: nat, from: Pos, head: Pos, n: nat, got: seq<int>)
    | GetClear(i: nat, c: Pos, end: Pos, got: seq<int>)

  datatype State = State(
    g: Geo,
    head: Pos,
    tail: Pos,
    token: seq<nat>,
    length: seq<nat>,
    chunk: seq<int>,
    threads: seq<Pc>,
    log: seq<Entry>,        // history: the reservations in order
    done: seq<bool>,        // history: whether the token of each has been written
    taker: seq<nat>,        // history: the readers that claimed the first of them
    owner: seq<Option<nat>>) // history: the reservation that holds a slot, from its CAS to the reset of its token

  /** What the program does not determine by itself. */
  datatype Move =
    | BeginPut(t: nat, rec: seq<int>)
    | BeginGet(t: nat)
    | Go(t: nat, patient: bool, junk: nat) // rw_conflict below its limit; what payload bytes read as a token

  function S(s: State): nat {
    Slots(s.g)
  }

  function End(e: Entry): Pos {
    Pos(e.start.lap, e.start.slot + |e.rec|)
  }

  /** The slots of a reservation, skipped ones included. */
  predicate Covers(g: Geo, e: Entry, x: nat) {
    x < Slots(g) &&
    if e.first == e.start then e.start.slot <= x < e.start.slot + |e.rec| else e.first.slot <= x || x < |e.rec|
  }

  function AddPos(g: Geo, p: Pos, n: nat): Pos {
    if p.slot + n < Slots(g) then Pos(p.lap, p.slot + n)
    else Pos(p.lap + (p.slot + n) / Slots(g), (p.slot + n) % Slots(g))
  }

  function Get<T>(a: seq<T>, x: nat, default: T): T {
    if x < |a| then a[x] else default
  }

  function Put<T>(a: seq<T>, x: nat, v: T): seq<T> {
    if x < |a| then a[x := v] else a
  }

  function Claimed(s: State): nat {
    |s.taker|
  }

  function Set(s: State, t: nat, pc: Pc): State
    requires t < |s.threads|
  {
    s.(threads := s.threads[t := pc])
  }

  function EntryOf(s: State, i: nat): Entry {
    if i < |s.log| then s.log[i] else Entry([], 0, Pos(0, 0), Pos(0, 0))
  }

  function NewEntry(t: nat, pc: Pc): Entry
    requires pc.PutCas?
  {
    Entry(pc.rec, t, pc.t, if pc.idx == pc.t.slot then pc.t else Pos(pc.t.lap + 1, pc.idx))
  }

  function Owned(g: Geo, owner: seq<Option<nat>>, e: Entry, i: nat): (r: seq<Option<nat>>)
    ensures |r| == |owner|
    ensures forall x :: 0 <= x < |owner| ==> r[x] == if Covers(g, e, x) then Some(i) else owner[x]
  {
    seq(|owner|, x requires 0 <= x < |owner| => if Covers(g, e, x) then Some(i) else owner[x])
  }

  function AfterReserve(s: State, t: nat, pc: Pc): State
    requires t < |s.threads| && pc.PutCas?
  {
    var e := NewEntry(t, pc);
    var i := |s.log|;
    Set(s, t, if pc.idx == 0 && pc.t.slot != 0 then PutMark(i, pc.t.slot) else PutLength(i)).(
      tail := Pos(e.start.lap, pc.newTail), log := s.log + [e], done := s.done + [false],
      owner := Owned(s.g, s.owner, e, i))
  }

  function PutStep(s: State, t: nat, pc: Pc, junk: nat): State
    requires t < |s.threads|
  {
    match pc
    case PutTail(rec) => Set(s, t, PutFreeHead(rec, s.tail))
    case PutFreeHead(rec, tl) => Set(s, t, PutFreeTail(rec, tl, s.head))
    case PutFreeTail(rec, tl, h) =>
      Set(s, t, if EmptyNodes(s.g, h.slot, s.tail.slot) < |rec| + RESERVE_BLOCK_COUNT then Idle
                else PutNewTail(rec, tl, h))
    case PutNewTail(rec, tl, h) =>
      var newTail := (s.tail.slot + |rec|) % S(s);
      Set(s, t, if newTail < tl.slot then PutWrapHead(rec, tl) else PutCas(rec, tl, tl.slot, newTail))
    case PutWrapHead(rec, tl) => Set(s, t, if s.head.slot - 1 < |rec| then Idle else PutCas(rec, tl, 0, |rec|))
    case PutCas(rec, tl, _, _) => if s.tail.slot == tl.slot then AfterReserve(s, t, pc) else Set(s, t, PutTail(rec))
    case PutMark(i, x) =>
      Set(s, t, if x + 1 < S(s) then PutMark(i, x + 1) else PutLength(i)).(token := Put(s.token, x, TOKEN_SKIPPED))
    case PutLength(i) =>
      Set(s, t, PutChunk(i, 0)).(length := Put(s.length, EntryOf(s, i).start.slot, |EntryOf(s, i).rec|))
    case PutChunk(i, k) =>
      var e := EntryOf(s, i);
      if k < |e.rec| then
        var x := e.start.slot + k;
        var s' := Set(s, t, PutChunk(i, k + 1)).(chunk := Put(s.chunk, x, e.rec[k]));
        if k == 0 then s' else s'.(token := Put(s.token, x, junk), length := Put(s.length, x, junk))
      else Set(s, t, PutToken(i))
    case PutToken(i) =>
      Set(s, t, Idle).(token := Put(s.token, EntryOf(s, i).start.slot, TOKEN_HAS_DATA), done := Put(s.done, i, true))
    case _ => s
  }

  function GetStep(s: State, t: nat, pc: Pc, patient: bool): State
    requires t < |s.threads|
  {
    match pc
    case GetHead => Set(s, t, GetEnd(s.head, s.head))
    case GetEnd(from, head) =>
      Set(s, t, if s.tail.slot != head.slot then GetToken(from, head)
                else if head.slot != from.slot then GetNone(from, head) else Idle)
    case GetNone(from, head) =>
      if s.head.slot == from.slot then Set(s, t, GetClear(Claimed(s), from, head, [])).(head := head)
      else Set(s, t, Idle)
    case GetToken(from, head) =>
      var token := Get(s.token, head.slot, 0);
      Set(s, t, if token == TOKEN_HAS_DATA then GetLength(from, head)
                else if token == TOKEN_NO_DATA && patient then GetMoved(from, head)
                else GetAgain(from, head))
    case GetMoved(from, head) => Set(s, t, if s.head.slot != from.slot then GetHead else Idle)
    case GetAgain(from, head) =>
      Set(s, t, if Get(s.token, head.slot, 0) == TOKEN_HAS_DATA then GetLength(from, head)
                else GetEnd(from, AddPos(s.g, head, 1)))
    case GetLength(from, head) => Set(s, t, GetRoom(from, head, Get(s.length, head.slot, 0)))
    case GetRoom(from, head, n) =>
      Set(s, t, if UsedNodes(s.g, head.slot, s.tail.slot) < n then GetEnd(from, AddPos(s.g, head, 1))
                else GetCas(from, head, n))
    case GetCas(from, head, n) =>
      if s.head.slot == from.slot then
        Set(s, t, GetCopy(Claimed(s), from, head, n, [])).(head := AddPos(s.g, head, n), taker := s.taker + [t])
      else Set(s, t, GetHead)
    case GetCopy(i, from, head, n, got) =>
      Set(s, t, if |got| < n then GetCopy(i, from, head, n, got + [Get(s.chunk, head.slot + |got|, 0)])
                else GetClear(i, from, AddPos(s.g, head, n), got))
    case GetClear(i, c, end, got) =>
      if c.slot == end.slot then Set(s, t, Idle)
      else Set(s, t, GetClear(i, AddPos(s.g, c, 1), end, got)).(
        token := Put(s.token, c.slot, TOKEN_NO_DATA), owner := Put(s.owner, c.slot, None))
    case _ => s
  }

  predicate IsPut(pc: Pc) {
    pc.PutTail? || pc.PutFreeHead? || pc.PutFreeTail? || pc.PutNewTail? || pc.PutWrapHead? || pc.PutCas?
    || pc.PutMark? || pc.PutLength? || pc.PutChunk? || pc.PutToken?
  }

  predicate Enabled(s: State, m: Move) {
    m.t < |s.threads| &&
    match m
    case BeginPut(t, rec) => s.threads[t].Idle? && rec != []
    case BeginGet(t) => s.threads[t].Idle?
    case Go(t, _, _) => !s.threads[t].Idle?
  }

  function Apply(s: State, m: Move): State
    requires Enabled(s, m)
  {
    match m
    case BeginPut(t, rec) => Set(s, t, PutTail(rec))
    case BeginGet(t) => Set(s, t, GetHead)
    case Go(t, patient, junk) =>
      if IsPut(s.threads[t]) then PutStep(s, t, s.threads[t], junk) else GetStep(s, t, s.threads[t], patient)
  }

  predicate Step(s: State, s': State, m: Move) {
    Enabled(s, m) && s' == Apply(s, m)
  }

  /** The slot x of the reservation is still held by a reader. */
  ghost predicate Overruns(s: State, e: Entry, x: nat)
    requires x < |s.owner|
  {
    Covers(s.g, e, x) && s.owner[x].Some? && s.owner[x].value < Claimed(s)
  }

  /**
   What the code does not guard against: a compare-and-swap that succeeds after a full lap of the position, a
   reservation of slots that a reader has claimed but not yet copied and reset, and a reader that gives up
   waiting for the token at the head of the queue.
   */
  ghost predicate Hazard(s: State, m: Move) {
    m.Go? && m.t < |s.threads| &&
    match s.threads[m.t]
    case PutCas(_, tl, _, _) =>
      && s.tail.slot == tl.slot
      && (s.tail != tl || exists x :: 0 <= x < |s.owner| && Overruns(s, NewEntry(m.t, s.threads[m.t]), x))
    case GetNone(from, _) => s.head.slot == from.slot && s.head != from
    case GetCas(from, _, _) => s.head.slot == from.slot && s.head != from
    case GetAgain(from, head) => s.head == from && Get(s.token, head.slot, 0) == TOKEN_NO_DATA
    case _ => false
  }

  ghost predicate Init(s: State) {
    && GoodGeo(s.g) && s.head == s.tail == Pos(0, 0)
    && |s.token| == |s.length| == |s.chunk| == |s.owner| == S(s)
    && (forall x :: 0 <= x < S(s) ==> s.token[x] == TOKEN_NO_DATA && s.owner[x].None?)
    && (forall t :: 0 <= t < |s.threads| ==> s.threads[t].Idle?)
    && s.log == [] && s.done == [] && s.taker == []
  }
}
