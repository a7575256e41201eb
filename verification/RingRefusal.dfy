/** How a put may end, although puts and gets of other threads overlap with it. */
module RingRefusal {
  import opened RingLayout
  import opened RingReserve
  import opened RingMachine
  import opened RingTheorems

  /** The thread began a put of the record with move b and has not come to its end before move n. */
  ghost predicate InPut(states: seq<State>, moves: seq<Move>, b: nat, n: nat, t: nat, rec: seq<int>) {
    && b < n < |states| && |moves| < |states| && b < |moves| && moves[b] == BeginPut(t, rec)
    && forall k {:trigger states[k]} :: b < k <= n ==> t < |states[k].threads| && !states[k].threads[t].Idle?
  }

  predicate Flies(pc: Pc) {
    pc.PutMark? || pc.PutLength? || pc.PutChunk? || pc.PutToken?
  }

  ghost predicate HeadWas(states: seq<State>, b: nat, n: nat, p: Pos) {
    exists k :: b < k <= n && k < |states| && states[k].head == p
  }

  ghost predicate TailWas(states: seq<State>, b: nat, n: nat, p: Pos) {
    exists k :: b < k <= n && k < |states| && states[k].tail == p
  }

  /** Behind the tail, as it was at a moment of the call, the record does not fit before the end of the array. */
  ghost predicate GoesRound(states: seq<State>, b: nat, n: nat, rec: seq<int>, p: Pos) {
    exists k :: b < k <= n && k < |states| && (states[k].tail.slot + |rec|) % Slots(states[k].g) < p.slot
  }

  predicate HasTail(pc: Pc) {
    pc.PutFreeHead? || pc.PutFreeTail? || pc.PutNewTail? || pc.PutWrapHead? || pc.PutCas?
  }

  /** It still puts that record, and the positions that it read are of the call. */
  ghost predicate Puts(states: seq<State>, b: nat, n: nat, t: nat, rec: seq<int>)
    requires n < |states| && t < |states[n].threads|
  {
    var pc := states[n].threads[t];
    && (BeforeCas(pc) || Flies(pc))
    && (BeforeCas(pc) ==> pc.rec == rec)
    && (Flies(pc) ==> pc.i < |states[n].log| && states[n].log[pc.i].rec == rec && states[n].log[pc.i].writer == t)
    && (pc.PutFreeTail? ==> HeadWas(states, b, n, pc.h))
    && (HasTail(pc) ==> TailWas(states, b, n, pc.t))
    && (pc.PutWrapHead? ==> GoesRound(states, b, n, rec, pc.t))
  }

  /** Where a writer's program counter leads. */
  ghost predicate PutLeads(s: State, s': State, t: nat, pc: Pc, pc': Pc) {
    && s.log <= s'.log && (pc'.Idle? || BeforeCas(pc') || Flies(pc'))
    && (BeforeCas(pc') ==> BeforeCas(pc) && pc'.rec == pc.rec)
    && (pc'.PutFreeTail? ==> pc'.h == s.head)
    && (HasTail(pc') ==> (pc.PutTail? && pc'.t == s.tail) || (HasTail(pc) && pc'.t == pc.t))
    && (pc'.PutWrapHead? ==> BeforeCas(pc) && (s.tail.slot + |pc.rec|) % Slots(s.g) < pc'.t.slot)
    && (Flies(pc') ==>
          || (Flies(pc) && pc'.i == pc.i)
          || (pc.PutCas? && pc'.i == |s.log| < |s'.log| && s'.log[pc'.i].rec == pc.rec && s'.log[pc'.i].writer == t))
  }

  lemma PutStepLeadsOn(s: State, t: nat, junk: nat)
    requires t < |s.threads| && (BeforeCas(s.threads[t]) || Flies(s.threads[t]))
    ensures var s' := PutStep(s, t, s.threads[t], junk);
      |s'.threads| == |s.threads| && PutLeads(s, s', t, s.threads[t], s'.threads[t])
  {
  }

  lemma HeadWasStill(states: seq<State>, b: nat, n: nat, p: Pos)
    requires n > 0 && HeadWas(states, b, n - 1, p)
    ensures HeadWas(states, b, n, p)
  {
  }

  lemma TailWasStill(states: seq<State>, b: nat, n: nat, p: Pos)
    requires n > 0 && TailWas(states, b, n - 1, p)
    ensures TailWas(states, b, n, p)
  {
  }

  lemma StillGoesRound(states: seq<State>, b: nat, n: nat, rec: seq<int>, p: Pos)
    requires n > 0 && GoesRound(states, b, n - 1, rec, p)
    ensures GoesRound(states, b, n, rec, p)
  {
  }

  lemma OwnMove(states: seq<State>, b: nat, n: nat, t: nat, rec: seq<int>, junk: nat)
    requires b + 1 < n < |states| && t < |states[n - 1].threads| && Puts(states, b, n - 1, t, rec)
    requires states[n] == PutStep(states[n - 1], t, states[n - 1].threads[t], junk)
    requires t < |states[n].threads| && !states[n].threads[t].Idle?
    ensures Puts(states, b, n, t, rec)
  {
    var s, s' := states[n - 1], states[n];
    PutStepLeadsOn(s, t, junk);
    if s'.threads[t].PutFreeTail? {
      assert s.head == s'.threads[t].h;
      assert HeadWas(states, b, n, s'.threads[t].h);
    }
    if HasTail(s'.threads[t]) {
      if s.threads[t].PutTail? {
        assert s.tail == s'.threads[t].t;
        assert TailWas(states, b, n, s'.threads[t].t);
      } else {
        TailWasStill(states, b, n, s.threads[t].t);
      }
    }
    if s'.threads[t].PutWrapHead? {
      assert (s.tail.slot + |rec|) % Slots(s.g) < s'.threads[t].t.slot;
      assert GoesRound(states, b, n, rec, s'.threads[t].t);
    }
  }

  lemma OthersMove(states: seq<State>, b: nat, n: nat, t: nat, rec: seq<int>, m: Move)
    requires 0 < n < |states| && t < |states[n - 1].threads| && Puts(states, b, n - 1, t, rec)
    requires Step(states[n - 1], states[n], m) && m.t != t
    ensures t < |states[n].threads| && Puts(states, b, n, t, rec)
  {
    OthersStay(states[n - 1], states[n], m, t);
    HistoryStep(states[n - 1], states[n], m);
    if states[n].threads[t].PutFreeTail? {
      HeadWasStill(states, b, n, states[n].threads[t].h);
    }
    if HasTail(states[n].threads[t]) {
      TailWasStill(states, b, n, states[n].threads[t].t);
    }
    if states[n].threads[t].PutWrapHead? {
      StillGoesRound(states, b, n, rec, states[n].threads[t].t);
    }
  }

  lemma InPutBefore(states: seq<State>, moves: seq<Move>, b: nat, n: nat, t: nat, rec: seq<int>)
    requires InPut(states, moves, b, n, t, rec) && b + 1 < n
    ensures InPut(states, moves, b, n - 1, t, rec) && t < |states[n - 1].threads| && !states[n - 1].threads[t].Idle?
  {
    assert t < |states[n - 1].threads|;
  }

  lemma MoveKeepsPuts(states: seq<State>, moves: seq<Move>, b: nat, n: nat, t: nat, rec: seq<int>)
    requires CleanRun(states, moves) && InPut(states, moves, b, n, t, rec) && b + 1 < n
    requires t < |states[n - 1].threads| && !states[n - 1].threads[t].Idle? && Puts(states, b, n - 1, t, rec)
    ensures t < |states[n].threads| && Puts(states, b, n, t, rec)
  {
    var m := moves[n - 1];
    assert Step(states[n - 1], states[n], m);
    assert t < |states[n].threads| && !states[n].threads[t].Idle?;
    if m.t == t {
      OwnMove(states, b, n, t, rec, m.junk);
    } else {
      OthersMove(states, b, n, t, rec, m);
    }
  }

  lemma {:induction false} InPutMeans(states: seq<State>, moves: seq<Move>, b: nat, n: nat, t: nat, rec: seq<int>)
    requires CleanRun(states, moves) && InPut(states, moves, b, n, t, rec)
    ensures t < |states[n].threads| && Puts(states, b, n, t, rec)
    decreases n
  {
    if n == b + 1 {
      assert Step(states[b], states[n], moves[b]);
    } else {
      InPutBefore(states, moves, b, n, t, rec);
      InPutMeans(states, moves, b, n - 1, t, rec);
      MoveKeepsPuts(states, moves, b, n, t, rec);
    }
  }

  /** Its token is stored: the record it was asked to put can be read. */
  ghost predicate Succeeded(s: State, s': State, t: nat, rec: seq<int>) {
    exists i :: 0 <= i < |s.log| && i < |s'.done| && s.log[i].rec == rec && s.log[i].writer == t && s'.done[i]
      && Get(s'.token, s.log[i].start.slot, TOKEN_HAS_DATA) == TOKEN_HAS_DATA
  }

  /** With a head position read during the call, and the tail as it is now, too few slots are free. */
  ghost predicate NoRoom(states: seq<State>, b: nat, n: nat, rec: seq<int>)
    requires n < |states|
  {
    exists k :: b < k <= n
      && EmptyNodes(states[n].g, states[k].head.slot, states[n].tail.slot) < |rec| + RESERVE_BLOCK_COUNT
  }

  /** From a tail position read during the call the record would have to go round, and does not fit below head. */
  ghost predicate NoRoomBelow(states: seq<State>, b: nat, n: nat, rec: seq<int>)
    requires n < |states|
  {
    && states[n].head.slot - 1 < |rec|
    && exists k :: b < k <= n && GoesRound(states, b, n, rec, states[k].tail)
  }

  /**
   A put ends with the token of a reservation of its own that holds the record it was asked to put, or refused for
   one of the two reasons. A lost race for the tail never ends it.
   */
  lemma PutEnds(states: seq<State>, moves: seq<Move>, b: nat, n: nat, t: nat, rec: seq<int>)
    requires CleanRun(states, moves) && n < |moves| && InPut(states, moves, b, n, t, rec)
    requires moves[n].t == t && t < |states[n + 1].threads| && states[n + 1].threads[t].Idle?
    ensures Succeeded(states[n], states[n + 1], t, rec) || NoRoom(states, b, n, rec) || NoRoomBelow(states, b, n, rec)
  {
    var s, s', m := states[n], states[n + 1], moves[n];
    CleanRunKeeps(states, moves, n);
    InPutMeans(states, moves, b, n, t, rec);
    assert Step(s, s', m) && t < |s.threads| && !s.threads[t].Idle?;
    match s.threads[t]
    case PutToken(i) => TokenEnds(s, s', m, t, rec);
    case PutFreeTail(_, _, h) =>
      var k :| b < k <= n && states[k].head == h;
      assert EmptyNodes(s.g, states[k].head.slot, s.tail.slot) < |rec| + RESERVE_BLOCK_COUNT;
    case PutWrapHead(_, tl) =>
      var k :| b < k <= n && states[k].tail == tl;
      assert GoesRound(states, b, n, rec, states[k].tail);
    case _ =>
  }

  lemma TokenEnds(s: State, s': State, m: Move, t: nat, rec: seq<int>)
    requires Step(s, s', m) && m.t == t && s.threads[t].PutToken? && |s.done| == |s.log|
    requires var i := s.threads[t].i; i < |s.log| && s.log[i].rec == rec && s.log[i].writer == t
    ensures Succeeded(s, s', t, rec)
  {
    var i := s.threads[t].i;
    assert i < |s.log| && i < |s'.done| && s'.done[i];
  }
}
