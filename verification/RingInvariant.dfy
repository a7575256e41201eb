/** What every step of the shared ring keeps, as long as the hazards of RingMachine do not occur. */
module RingInvariant {
  import opened Common
  import opened RingLayout
  import opened RingMachine

  // ----- positions

  ghost predicate LE(p: Pos, q: Pos) {
    p.lap < q.lap || (p.lap == q.lap && p.slot <= q.slot)
  }

  /** q is at p or behind it, by less than a lap. */
  ghost predicate Within(p: Pos, q: Pos) {
    (p.lap == q.lap && p.slot <= q.slot) || (q.lap == p.lap + 1 && q.slot < p.slot)
  }

  ghost predicate Wraps(e: Entry) {
    e.first != e.start
  }

  // ----- the shared state

  ghost predicate Shape(s: State) {
    && GoodGeo(s.g) && |s.token| == |s.length| == |s.chunk| == |s.owner| == S(s)
    && s.head.slot < S(s) && s.tail.slot < S(s) && Within(s.head, s.tail)
    && |s.done| == |s.log| && Claimed(s) <= |s.log|
  }

  ghost predicate EntryOk(s: State, i: nat)
    requires i < |s.log|
  {
    var e := s.log[i];
    && e.rec != [] && e.start.slot + |e.rec| < S(s) && e.first.slot < S(s)
    && (Wraps(e) ==> e.start == Pos(e.first.lap + 1, 0) && |e.rec| < e.first.slot)
    && (if i + 1 < |s.log| then End(e) == s.log[i + 1].first else End(e) == s.tail)
    && LE(End(e), s.tail)
  }

  ghost predicate Ordered(s: State, i: nat, j: nat)
    requires i < j < |s.log|
  {
    LE(End(s.log[i]), s.log[j].first)
  }

  /** The reservations follow one another; head is at the first unclaimed one. */
  ghost predicate Chain(s: State)
    requires Shape(s)
  {
    && (forall i {:trigger EntryOk(s, i)} :: 0 <= i < |s.log| ==> EntryOk(s, i))
    && (forall i, j {:trigger Ordered(s, i, j)} :: 0 <= i < j < |s.log| ==> Ordered(s, i, j))
    && s.head == (if Claimed(s) < |s.log| then s.log[Claimed(s)].first else s.tail)
  }

  ghost predicate SlotOk(s: State, x: nat)
    requires Shape(s) && x < S(s)
  {
    match s.owner[x]
    case None => s.token[x] == TOKEN_NO_DATA
    case Some(i) => i < |s.log| && Covers(s.g, s.log[i], x)
  }

  ghost predicate Owns(s: State, i: nat, x: nat)
    requires Shape(s) && x < S(s) && i < |s.log|
  {
    Covers(s.g, s.log[i], x) ==> s.owner[x] == Some(i)
  }

  /** Each slot has at most one holder; unclaimed reservations hold all their slots; the others read as empty. */
  ghost predicate Owners(s: State)
    requires Shape(s)
  {
    && (forall x {:trigger SlotOk(s, x)} :: 0 <= x < S(s) ==> SlotOk(s, x))
    && (forall i, x {:trigger Owns(s, i, x)} :: Claimed(s) <= i < |s.log| && 0 <= x < S(s) ==> Owns(s, i, x))
  }

  ghost predicate ChunkOk(s: State, i: nat, j: nat)
    requires Shape(s) && i < |s.log| && j < |s.log[i].rec|
  {
    var x := s.log[i].start.slot + j;
    x < S(s) && s.chunk[x] == s.log[i].rec[j]
  }

  ghost predicate Written(s: State, i: nat, k: nat)
    requires Shape(s) && i < |s.log| && k <= |s.log[i].rec|
  {
    forall j {:trigger ChunkOk(s, i, j)} :: 0 <= j < k ==> ChunkOk(s, i, j)
  }

  /** A skipped slot reads as empty until it is marked, and is marked before the token of the record is written. */
  ghost predicate SkipOk(s: State, i: nat, x: nat)
    requires Shape(s) && i < |s.log| && x < S(s)
  {
    Wraps(s.log[i]) && s.log[i].first.slot <= x ==>
      s.token[x] == TOKEN_SKIPPED || (s.token[x] == TOKEN_NO_DATA && !s.done[i])
  }

  ghost predicate MarkOk(s: State, i: nat, end: nat, y: nat)
    requires Shape(s) && i < |s.log| && y < S(s)
  {
    Wraps(s.log[i]) && s.log[i].first.slot <= y < end ==> s.token[y] == TOKEN_SKIPPED
  }

  /** The skipped slots before end are marked. */
  ghost predicate Marked(s: State, i: nat, end: nat)
    requires Shape(s) && i < |s.log|
  {
    forall y {:trigger MarkOk(s, i, end, y)} :: 0 <= y < S(s) ==> MarkOk(s, i, end, y)
  }

  /** The token of a record reads as data exactly when length and payload have been written. */
  ghost predicate CellOk(s: State, i: nat)
    requires Shape(s) && i < |s.log|
  {
    var x := s.log[i].start.slot;
    && x < S(s)
    && (if s.done[i] then s.token[x] == TOKEN_HAS_DATA && s.length[x] == |s.log[i].rec| && Written(s, i, |s.log[i].rec|)
        else s.token[x] == TOKEN_NO_DATA)
  }

  ghost predicate Cells(s: State)
    requires Shape(s)
  {
    && (forall i {:trigger CellOk(s, i)} :: Claimed(s) <= i < |s.log| ==> CellOk(s, i))
    && (forall i, x {:trigger SkipOk(s, i, x)} :: Claimed(s) <= i < |s.log| && 0 <= x < S(s) ==> SkipOk(s, i, x))
  }

  ghost predicate SharedOk(s: State) {
    Shape(s) && Chain(s) && Owners(s) && Cells(s)
  }

  // ----- writers

  /** Between the CAS and the token, the reservation is the thread's own and unclaimed. */
  ghost predicate InFlight(s: State, t: nat, i: nat)
    requires Shape(s)
  {
    Claimed(s) <= i < |s.log| && s.log[i].writer == t && !s.done[i]
  }

  /** The slots from h to tl, at most one lap ahead. */
  ghost function Used(g: Geo, h: Pos, tl: Pos): int {
    if h.lap == tl.lap then tl.slot - h.slot else tl.slot + Slots(g) - h.slot
  }

  /** Enough slots were free when head was at h. */
  ghost predicate Free(s: State, h: Pos, tl: Pos, n: nat) {
    h.slot < S(s) && Within(h, tl) && LE(h, s.head) && Used(s.g, h, tl) + n + RESERVE_BLOCK_COUNT <= s.g.cap
  }

  /** Enough slots are free now. */
  ghost predicate Spare(s: State, tl: Pos, n: nat) {
    Used(s.g, s.head, tl) + n + RESERVE_BLOCK_COUNT <= s.g.cap
  }

  /** The new tail, in this lap or the next, stays behind head by less than a lap. */
  ghost predicate Room(s: State, tl: Pos, n: nat, idx: nat, newTail: nat) {
    if idx == tl.slot then newTail == tl.slot + n < S(s) && Within(s.head, Pos(tl.lap, newTail))
    else idx == 0 && newTail == n < S(s) && tl.slot > 0 && Within(s.head, Pos(tl.lap + 1, newTail))
  }

  ghost predicate PutOk(s: State, t: nat, pc: Pc)
    requires Shape(s)
  {
    match pc
    case PutTail(rec) => rec != []
    case PutFreeHead(rec, tl) => rec != [] && LE(tl, s.tail)
    case PutFreeTail(rec, tl, h) => rec != [] && LE(tl, s.tail) && LE(h, s.head)
      && (s.tail == tl ==> h.slot < S(s) && Within(h, tl))
    case PutNewTail(rec, tl, h) => rec != [] && LE(tl, s.tail) && (s.tail == tl ==> Free(s, h, tl, |rec|))
    case PutWrapHead(rec, tl) => rec != [] && LE(tl, s.tail)
      && (s.tail == tl ==>
            s.head.lap == tl.lap && tl.slot > 0 && |rec| < S(s) <= tl.slot + |rec| && Spare(s, tl, |rec|))
    case PutCas(rec, tl, idx, newTail) => rec != [] && LE(tl, s.tail)
      && (s.tail == tl ==>
            && Room(s, tl, |rec|, idx, newTail) && Spare(s, tl, |rec|)
            && (idx != tl.slot ==> tl.slot + |rec| >= S(s)))
    case PutMark(i, x) => InFlight(s, t, i) && Wraps(s.log[i]) && s.log[i].first.slot <= x < S(s) && Marked(s, i, x)
    case PutLength(i) => InFlight(s, t, i) && Marked(s, i, S(s))
    case PutChunk(i, k) => InFlight(s, t, i) && k <= |s.log[i].rec| && Written(s, i, k) && Marked(s, i, S(s))
      && s.log[i].start.slot < S(s) && s.length[s.log[i].start.slot] == |s.log[i].rec|
    case PutToken(i) => InFlight(s, t, i) && Written(s, i, |s.log[i].rec|) && Marked(s, i, S(s))
      && s.log[i].start.slot < S(s) && s.length[s.log[i].start.slot] == |s.log[i].rec|
    case _ => true
  }

  // ----- readers

  /** p is at head, at the record behind it, or at a skipped slot between the two. */
  ghost predicate AtFront(s: State, p: Pos) {
    if Claimed(s) < |s.log| then
      var e := s.log[Claimed(s)];
      p == e.start || (Wraps(e) && p.lap == e.first.lap && e.first.slot <= p.slot < S(s))
    else p == s.head
  }

  /** p is at the first record, whose token has been written. */
  ghost predicate AtRecord(s: State, p: Pos)
    requires Shape(s)
  {
    Claimed(s) < |s.log| && p == s.log[Claimed(s)].start && s.done[Claimed(s)]
  }

  /** c lies on the way from the beginning of the reservation to its end. */
  ghost predicate CursorOk(s: State, e: Entry, c: Pos) {
    || (c.lap == e.start.lap && e.start.slot <= c.slot <= e.start.slot + |e.rec|)
    || (Wraps(e) && c.lap == e.first.lap && e.first.slot <= c.slot < S(s))
  }

  /** The slot is not yet reset when the reset is at c. */
  ghost predicate Remains(s: State, i: nat, c: Pos, x: nat)
    requires Shape(s) && i < |s.log| && x < S(s)
  {
    var e := s.log[i];
    (Covers(s.g, e, x)
     && if c.lap == e.start.lap then c.slot <= x < e.start.slot + |e.rec| else c.slot <= x || x < |e.rec|)
    ==> s.owner[x] == Some(i)
  }

  /** A claimed reservation in the hands of its reader. */
  ghost predicate Taken(s: State, t: nat, i: nat)
    requires Shape(s)
  {
    i < Claimed(s) && s.taker[i] == t && s.done[i]
  }

  ghost predicate GetOk(s: State, t: nat, pc: Pc)
    requires Shape(s)
  {
    match pc
    case GetEnd(from, head) => LE(from, s.head) && (s.head == from ==> AtFront(s, head))
    case GetNone(from, head) => LE(from, s.head) && s.head != from
    case GetToken(from, head) => LE(from, s.head) && (s.head == from ==> AtFront(s, head) && Claimed(s) < |s.log|)
    case GetAgain(from, head) => LE(from, s.head) && (s.head == from ==> AtFront(s, head) && Claimed(s) < |s.log|)
    case GetLength(from, head) => LE(from, s.head) && (s.head == from ==> AtRecord(s, head))
    case GetRoom(from, head, n) =>
      LE(from, s.head) && (s.head == from ==> AtRecord(s, head) && n == |s.log[Claimed(s)].rec|)
    case GetCas(from, head, n) =>
      LE(from, s.head) && (s.head == from ==> AtRecord(s, head) && n == |s.log[Claimed(s)].rec|)
    case GetCopy(i, from, head, n, got) => Taken(s, t, i) && Written(s, i, |s.log[i].rec|)
      && from == s.log[i].first && head == s.log[i].start && n == |s.log[i].rec| && got <= s.log[i].rec
      && (forall x {:trigger Owns(s, i, x)} :: 0 <= x < S(s) ==> Owns(s, i, x))
    case GetClear(i, c, end, got) => Taken(s, t, i) && got == s.log[i].rec && end == End(s.log[i])
      && CursorOk(s, s.log[i], c)
      && (forall x {:trigger Remains(s, i, c, x)} :: 0 <= x < S(s) ==> Remains(s, i, c, x))
    case _ => true
  }

  ghost predicate ThreadOk(s: State, t: nat)
    requires Shape(s) && t < |s.threads|
  {
    PutOk(s, t, s.threads[t]) && GetOk(s, t, s.threads[t])
  }

  ghost predicate Inv(s: State) {
    SharedOk(s) && forall t {:trigger ThreadOk(s, t)} :: 0 <= t < |s.threads| ==> ThreadOk(s, t)
  }

  lemma InitHolds(s: State)
    requires Init(s)
    ensures Inv(s)
  {
  }

  // ----- what a thread may count on while another one moves

  ghost predicate Untouched(s: State, s': State, t: nat, x: nat)
    requires Shape(s) && Shape(s') && S(s') == S(s) && x < S(s)
  {
    s.owner[x].Some? ==>
      var i := s.owner[x].value;
      (i < |s.log| && (if i < Claimed(s) then s.taker[i] != t else s.log[i].writer != t)) ==>
        && s'.chunk[x] == s.chunk[x] && s'.length[x] == s.length[x] && s'.token[x] == s.token[x]
        && s'.owner[x] == s.owner[x]
  }

  ghost predicate DoneKept(s: State, s': State, t: nat, i: nat)
    requires Shape(s) && Shape(s') && i < |s.log| && |s.log| <= |s'.log|
  {
    && (s.done[i] ==> s'.done[i]) && (s.log[i].writer != t ==> s'.done[i] == s.done[i])
    && (i < Claimed(s') ==> i < Claimed(s) || s.done[i])
  }

  /** What thread t leaves to the others. */
  ghost predicate Rely(s: State, s': State, t: nat)
    requires Shape(s) && Shape(s')
  {
    && s'.g == s.g && s.log <= s'.log && s.taker <= s'.taker
    && LE(s.head, s'.head) && LE(s.tail, s'.tail) && (s'.head == s.head ==> s'.taker == s.taker)
    && (forall i {:trigger DoneKept(s, s', t, i)} :: 0 <= i < |s.log| ==> DoneKept(s, s', t, i))
    && (forall x {:trigger Untouched(s, s', t, x)} :: 0 <= x < S(s) ==> Untouched(s, s', t, x))
  }
}
