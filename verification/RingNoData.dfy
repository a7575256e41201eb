/** When a get may report that there is no data, although puts and other gets overlap with it. */
module RingNoData {
  import opened RingLayout
  import opened RingMachine
  import opened RingInvariant
  import opened RingTheorems

  /** The thread began a get with move b and has not come to its end before move n. */
  ghost predicate InGet(states: seq<State>, moves: seq<Move>, b: nat, n: nat, t: nat) {
    && b < n < |states| && |moves| < |states| && b < |moves| && moves[b] == BeginGet(t)
    && forall k {:trigger states[k]} :: b < k <= n ==> t < |states[k].threads| && !states[k].threads[t].Idle?
  }

  ghost predicate ClaimsIn(states: seq<State>, moves: seq<Move>, b: nat, n: nat, t: nat) {
    exists k :: b < k < n && k < |moves| && k < |states| && moves[k].t == t && Claims(states[k], moves[k])
  }

  ghost predicate FirstUnwritten(s: State) {
    Claimed(s) < |s.log| && Claimed(s) < |s.done| && !s.done[Claimed(s)]
  }

  predicate HasFrom(pc: Pc) {
    || pc.GetEnd? || pc.GetNone? || pc.GetToken? || pc.GetMoved? || pc.GetAgain?
    || pc.GetLength? || pc.GetRoom? || pc.GetCas?
  }

  // ----- what the thread knows before the claim

  ghost predicate ReadFrom(states: seq<State>, b: nat, n: nat, p: Pos) {
    exists k :: b < k <= n && k < |states| && states[k].head == p
  }

  /** At its token the thread found the first record without its token, if head was as it had read it. */
  ghost predicate SawNone(states: seq<State>, b: nat, n: nat, from: Pos) {
    exists k :: b < k <= n && k < |states| && LE(from, states[k].head)
      && (states[k].head == from ==> FirstUnwritten(states[k]))
  }

  ghost predicate Known(states: seq<State>, moves: seq<Move>, b: nat, n: nat, t: nat)
    requires n < |states| && t < |states[n].threads|
  {
    var pc := states[n].threads[t];
    && (pc.GetHead? || HasFrom(pc) || pc.GetCopy? || pc.GetClear?)
    && (HasFrom(pc) ==> ReadFrom(states, b, n, pc.from))
    && (pc.GetMoved? ==> SawNone(states, b, n, pc.from))
    && (pc.GetCopy? || pc.GetClear? ==> ClaimsIn(states, moves, b, n, t))
  }

  /** An empty token at the front of the queue: the writer of the first record is not through. */
  lemma EmptyTokenTells(s: State, p: Pos)
    requires SharedOk(s) && AtFront(s, p) && Claimed(s) < |s.log| && Get(s.token, p.slot, 0) == TOKEN_NO_DATA
    ensures FirstUnwritten(s)
  {
    var c := Claimed(s);
    assert EntryOk(s, c) && CellOk(s, c);
    assert SkipOk(s, c, p.slot);
  }

  lemma ReadsOn(states: seq<State>, b: nat, n: nat, p: Pos)
    requires n > 0 && ReadFrom(states, b, n - 1, p)
    ensures ReadFrom(states, b, n, p)
  {
  }

  /** Where a reader's program counter can come from. */
  ghost predicate ComesFrom(s: State, pc: Pc, pc': Pc) {
    && (pc'.GetHead? || pc'.Idle? || HasFrom(pc') || pc'.GetCopy? || pc'.GetClear?)
    && (HasFrom(pc') ==> (pc.GetHead? && pc'.from == s.head) || (HasFrom(pc) && pc'.from == pc.from))
    && (pc'.GetMoved? ==> pc.GetToken? && pc'.from == pc.from && Get(s.token, pc.head.slot, 0) == TOKEN_NO_DATA)
    && (pc'.GetCopy? ==> pc.GetCopy? || (pc.GetCas? && s.head.slot == pc.from.slot))
    && (pc'.GetClear? ==> pc.GetCopy? || pc.GetClear? || (pc.GetNone? && s.head.slot == pc.from.slot))
  }

  lemma WhereFrom(s: State, t: nat, patient: bool)
    requires t < |s.threads| && !IsPut(s.threads[t]) && !s.threads[t].Idle?
    ensures ComesFrom(s, s.threads[t], GetStep(s, t, s.threads[t], patient).threads[t])
  {
  }

  lemma OwnStep(states: seq<State>, moves: seq<Move>, b: nat, n: nat, t: nat)
    requires CleanRun(states, moves) && InGet(states, moves, b, n, t) && b + 1 < n && Inv(states[n - 1])
    requires t < |states[n - 1].threads| && moves[n - 1].t == t && Known(states, moves, b, n - 1, t)
    ensures Known(states, moves, b, n, t)
  {
    var s, s', m := states[n - 1], states[n], moves[n - 1];
    assert Step(s, s', m) && !Hazard(s, m) && ThreadOk(s, t) && !s.threads[t].Idle? && !s'.threads[t].Idle?;
    var pc, pc' := s.threads[t], s'.threads[t];
    WhereFrom(s, t, m.patient);
    assert ComesFrom(s, pc, pc');
    if HasFrom(pc') {
      if pc.GetHead? {
        assert s.head == pc'.from;
      } else {
        ReadsOn(states, b, n, pc.from);
      }
    }
    if pc'.GetMoved? {
      TokenStep(states, b, n, t);
    }
  }

  lemma TokenStep(states: seq<State>, b: nat, n: nat, t: nat)
    requires b + 1 < n < |states| && Inv(states[n - 1]) && t < |states[n - 1].threads|
    requires var s := states[n - 1];
      s.threads[t].GetToken? && Get(s.token, s.threads[t].head.slot, 0) == TOKEN_NO_DATA
    ensures SawNone(states, b, n, states[n - 1].threads[t].from)
  {
    var s := states[n - 1];
    assert ThreadOk(s, t);
    if s.head == s.threads[t].from {
      EmptyTokenTells(s, s.threads[t].head);
    }
  }

  lemma OtherStep(states: seq<State>, moves: seq<Move>, b: nat, n: nat, t: nat)
    requires CleanRun(states, moves) && InGet(states, moves, b, n, t) && b + 1 < n && t < |states[n - 1].threads|
    requires moves[n - 1].t != t && Known(states, moves, b, n - 1, t)
    ensures Known(states, moves, b, n, t)
  {
    assert Step(states[n - 1], states[n], moves[n - 1]);
    OthersStay(states[n - 1], states[n], moves[n - 1], t);
    KnownOn(states, moves, b, n, t);
  }

  lemma KnownOn(states: seq<State>, moves: seq<Move>, b: nat, n: nat, t: nat)
    requires 0 < n < |states| && t < |states[n - 1].threads| && t < |states[n].threads|
    requires states[n].threads[t] == states[n - 1].threads[t] && Known(states, moves, b, n - 1, t)
    ensures Known(states, moves, b, n, t)
  {
    if HasFrom(states[n].threads[t]) {
      ReadsOn(states, b, n, states[n].threads[t].from);
    }
  }

  lemma FirstKnown(states: seq<State>, moves: seq<Move>, b: nat, t: nat)
    requires CleanRun(states, moves) && InGet(states, moves, b, b + 1, t)
    ensures Known(states, moves, b, b + 1, t)
  {
    assert Step(states[b], states[b + 1], moves[b]);
  }

  lemma InGetBefore(states: seq<State>, moves: seq<Move>, b: nat, n: nat, t: nat)
    requires InGet(states, moves, b, n, t) && b + 1 < n
    ensures InGet(states, moves, b, n - 1, t) && t < |states[n - 1].threads|
  {
    assert t < |states[n - 1].threads|;
  }

  lemma NextKnown(states: seq<State>, moves: seq<Move>, b: nat, n: nat, t: nat)
    requires CleanRun(states, moves) && InGet(states, moves, b, n, t) && b + 1 < n && t < |states[n - 1].threads|
    requires Known(states, moves, b, n - 1, t)
    ensures Known(states, moves, b, n, t)
  {
    if moves[n - 1].t == t {
      CleanRunKeeps(states, moves, n - 1);
      OwnStep(states, moves, b, n, t);
    } else {
      OtherStep(states, moves, b, n, t);
    }
  }

  lemma {:induction false} KnownInGet(states: seq<State>, moves: seq<Move>, b: nat, n: nat, t: nat)
    requires CleanRun(states, moves) && InGet(states, moves, b, n, t)
    ensures Known(states, moves, b, n, t)
    decreases n
  {
    if n == b + 1 {
      FirstKnown(states, moves, b, t);
    } else {
      InGetBefore(states, moves, b, n, t);
      KnownInGet(states, moves, b, n - 1, t);
      NextKnown(states, moves, b, n, t);
    }
  }

  // ----- heads only advance

  lemma HeadStep(s: State, s': State, m: Move)
    requires Inv(s) && Step(s, s', m) && !Hazard(s, m)
    ensures LE(s.head, s'.head)
  {
    assert ThreadOk(s, m.t);
    if Claimed(s) < |s.log| {
      assert EntryOk(s, Claimed(s));
    }
  }

  lemma {:induction false} HeadsAdvance(states: seq<State>, moves: seq<Move>, i: nat, j: nat)
    requires CleanRun(states, moves) && i <= j < |states|
    ensures LE(states[i].head, states[j].head)
    decreases j
  {
    if i < j {
      HeadsAdvance(states, moves, i, j - 1);
      CleanRunKeeps(states, moves, j - 1);
      assert Step(states[j - 1], states[j], moves[j - 1]) && !Hazard(states[j - 1], moves[j - 1]);
      HeadStep(states[j - 1], states[j], moves[j - 1]);
    }
  }

  // ----- the answer

  ghost predicate SawUnwritten(states: seq<State>, b: nat, n: nat) {
    exists k :: b < k <= n && k < |states| && FirstUnwritten(states[k])
  }

  /**
   Why a get gives up where it does: at an empty token, head being in the slot where it was read, because the first
   record was without its token, unless head has gone round; at the end of the queue, because the queue is
   empty, unless head has moved; or because somebody else moved head over the skipped slots.
   */
  ghost predicate Reason(states: seq<State>, b: nat, n: nat, t: nat)
    requires n < |states| && t < |states[n].threads|
  {
    var s := states[n];
    match s.threads[t]
    case GetMoved(from, _) =>
      ReadFrom(states, b, n, from) && s.head.slot == from.slot && (s.head == from ==> SawUnwritten(states, b, n))
    case GetEnd(from, head) =>
      ReadFrom(states, b, n, from) && s.tail.slot == head.slot && (s.head == from ==> Queue(s) == [])
    case GetNone(from, _) => ReadFrom(states, b, n, from) && s.head.slot != from.slot
    case _ => false
  }

  lemma NoneWasUnwritten(states: seq<State>, moves: seq<Move>, b: nat, n: nat, p: Pos)
    requires CleanRun(states, moves) && SawNone(states, b, n, p) && n < |states| && states[n].head == p
    ensures SawUnwritten(states, b, n)
  {
    var k :| b < k <= n && LE(p, states[k].head) && (states[k].head == p ==> FirstUnwritten(states[k]));
    HeadsAdvance(states, moves, k, n);
  }

  /**
   A get that ends without having claimed a record has one of these reasons. It never ends because it lost the race
   for a record, nor before it has looked.
   */
  lemma NoDataHasReason(states: seq<State>, moves: seq<Move>, b: nat, n: nat, t: nat)
    requires CleanRun(states, moves) && n < |moves| && InGet(states, moves, b, n, t)
    requires moves[n].t == t && states[n + 1].threads[t].Idle? && !ClaimsIn(states, moves, b, n, t)
    ensures Reason(states, b, n, t)
  {
    var s, pc := states[n], states[n].threads[t];
    KnownInGet(states, moves, b, n, t);
    CleanRunKeeps(states, moves, n);
    assert Step(s, states[n + 1], moves[n]) && !Hazard(s, moves[n]) && ThreadOk(s, t);
    if pc.GetMoved? && s.head == pc.from {
      NoneWasUnwritten(states, moves, b, n, pc.from);
    } else if pc.GetEnd? && s.head == pc.from {
      NoneMeansEmpty(states, moves, n);
    }
  }

  /** Why a get may have found nothing, in terms of the queue. */
  ghost predicate Excuse(states: seq<State>, k: nat, n: nat)
    requires k < |states| && n < |states|
  {
    Queue(states[k]) == [] || FirstUnwritten(states[k]) || states[k].head != states[n].head
  }

  lemma ReasonIsExcuse(states: seq<State>, b: nat, n: nat, t: nat)
    requires b < n < |states| && t < |states[n].threads| && Reason(states, b, n, t)
    ensures exists k :: b < k <= n && Excuse(states, k, n)
  {
    var s, pc := states[n], states[n].threads[t];
    var j :| b < j <= n && states[j].head == pc.from;
    if s.head != pc.from {
      assert Excuse(states, j, n);
    } else if pc.GetMoved? {
      var k :| b < k <= n && FirstUnwritten(states[k]);
      assert Excuse(states, k, n);
    } else {
      assert Excuse(states, n, n);
    }
  }

  /**
   A get that ends without having claimed a record found, at some moment of the call, the queue empty, or the token
   of the first record not yet written; or head moved during the call, because another reader was served.
   */
  lemma NoDataMeans(states: seq<State>, moves: seq<Move>, b: nat, n: nat, t: nat)
    requires CleanRun(states, moves) && n < |moves| && InGet(states, moves, b, n, t)
    requires moves[n].t == t && states[n + 1].threads[t].Idle? && !ClaimsIn(states, moves, b, n, t)
    ensures exists k :: b < k <= n && Excuse(states, k, n)
  {
    NoDataHasReason(states, moves, b, n, t);
    ReasonIsExcuse(states, b, n, t);
  }
}
