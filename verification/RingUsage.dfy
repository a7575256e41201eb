/** The reserve of 100 slots and the usage of the ring while puts and gets overlap, in every clean run. */
module RingUsage {
  import opened RingLayout
  import opened RingReserve
  import opened RingMachine
  import opened RingInvariant
  import opened RingTheorems

  ghost function UsageAt(s: State): int {
    Usage(s.g, s.head.slot, s.tail.slot)
  }

  ghost function FreeAt(s: State): int {
    EmptyNodes(s.g, s.head.slot, s.tail.slot)
  }

  lemma FreeIsRest(s: State)
    requires Shape(s)
    ensures FreeAt(s) == s.g.cap - Used(s.g, s.head, s.tail)
    ensures 0 <= UsageAt(s) <= 100 && (UsageAt(s) <= 99 <==> FreeAt(s) > 0)
  {
    UsedIsDistance(s.g, s.head.slot, s.tail.slot);
    UsageRange(s.g, s.head.slot, s.tail.slot);
  }

  // ----- at the compare-and-swap on tail_pos

  ghost predicate GoesRound(pc: Pc)
    requires pc.PutCas?
  {
    pc.idx != pc.t.slot
  }

  /** The reservation goes round and ends directly below head. */
  ghost predicate EatsSpare(s: State, m: Move) {
    && Reserves(s, m)
    && GoesRound(s.threads[m.t]) && s.head.slot == |s.threads[m.t].rec| + 1
  }

  lemma ReservedUse(s: State, m: Move)
    requires Inv(s) && Enabled(s, m) && !Hazard(s, m) && Reserves(s, m)
    ensures var s', pc := Apply(s, m), s.threads[m.t];
      && s'.head == s.head && Spare(s, s.tail, |pc.rec|)
      && (if GoesRound(pc) then
            && Used(s.g, s.head, s'.tail) == |pc.rec| + S(s) - s.head.slot && |pc.rec| < s.head.slot
            && s.head.lap == s.tail.lap && s.tail.slot + |pc.rec| >= S(s)
          else Used(s.g, s.head, s'.tail) == Used(s.g, s.head, s.tail) + |pc.rec|)
  {
    assert ThreadOk(s, m.t);
  }

  /**
   However puts and gets overlap, a successful compare-and-swap on tail_pos leaves at least 100 slots free if the
   record does not go round, and at least 100 less its own slots if it does.
   */
  lemma ReservationKeepsSpare(states: seq<State>, moves: seq<Move>, i: nat)
    requires CleanRun(states, moves) && i < |moves| && Reserves(states[i], moves[i])
    ensures var pc := states[i].threads[moves[i].t];
      && FreeAt(states[i + 1]) >= (if GoesRound(pc) then RESERVE_BLOCK_COUNT - |pc.rec| else RESERVE_BLOCK_COUNT)
      && FreeAt(states[i + 1]) >= 0
      && (FreeAt(states[i + 1]) == 0 <==> EatsSpare(states[i], moves[i]))
  {
    CleanRunKeeps(states, moves, i);
    CleanRunKeeps(states, moves, i + 1);
    assert Step(states[i], states[i + 1], moves[i]);
    ReservedUse(states[i], moves[i]);
    FreeIsRest(states[i + 1]);
  }

  // ----- usage over a run

  lemma TailStays(s: State, s': State, m: Move)
    requires Step(s, s', m) && !Reserves(s, m)
    ensures s'.tail == s.tail && s'.g == s.g
  {
  }

  /** No other step moves the tail, and none moves head back. */
  lemma OthersFreeSlots(states: seq<State>, moves: seq<Move>, i: nat)
    requires CleanRun(states, moves) && i < |moves| && !Reserves(states[i], moves[i])
    ensures FreeAt(states[i + 1]) >= FreeAt(states[i])
  {
    var s, s' := states[i], states[i + 1];
    CleanRunKeeps(states, moves, i);
    CleanRunKeeps(states, moves, i + 1);
    assert Step(s, s', moves[i]);
    TailStays(s, s', moves[i]);
    HeadAdvances(states, moves, i);
    FreeIsRest(s);
    FreeIsRest(s');
  }

  lemma HeadAdvances(states: seq<State>, moves: seq<Move>, i: nat)
    requires CleanRun(states, moves) && i < |moves| && !Reserves(states[i], moves[i])
    ensures LE(states[i].head, states[i + 1].head)
  {
    var s, s' := states[i], states[i + 1];
    CleanRunKeeps(states, moves, i);
    CleanRunKeeps(states, moves, i + 1);
    StepRefines(states, moves, i);
    assert Step(s, s', moves[i]) && !Hazard(s, moves[i]);
    if Claims(s, moves[i]) {
      assert EntryOk(s, Claimed(s));
    }
    NoReservation(s, s', moves[i]);
  }

  lemma NoReservation(s: State, s': State, m: Move)
    requires Step(s, s', m) && !Reserves(s, m)
    ensures s'.log == s.log
  {
  }

  lemma StepKeepsRange(states: seq<State>, moves: seq<Move>, i: nat)
    requires CleanRun(states, moves) && i < |moves| && UsageAt(states[i]) <= 99
    ensures 0 <= UsageAt(states[i + 1]) && (UsageAt(states[i + 1]) <= 99 <==> !EatsSpare(states[i], moves[i]))
  {
    CleanRunKeeps(states, moves, i);
    CleanRunKeeps(states, moves, i + 1);
    FreeIsRest(states[i]);
    FreeIsRest(states[i + 1]);
    if Reserves(states[i], moves[i]) {
      ReservationKeepsSpare(states, moves, i);
    } else {
      OthersFreeSlots(states, moves, i);
    }
  }

  lemma {:induction false} RangeUpTo(states: seq<State>, moves: seq<Move>, k: nat)
    requires CleanRun(states, moves) && k < |states|
    requires forall i :: 0 <= i < k ==> !EatsSpare(states[i], moves[i])
    ensures 0 <= UsageAt(states[k]) <= 99
  {
    if k == 0 {
      CleanRunKeeps(states, moves, 0);
      FreeIsRest(states[0]);
    } else {
      RangeUpTo(states, moves, k - 1);
      StepKeepsRange(states, moves, k - 1);
    }
  }

  /** Usage stays within 0 to 99 throughout a clean run exactly when no reservation ends directly below head. */
  lemma UsageStaysInRange(states: seq<State>, moves: seq<Move>)
    requires CleanRun(states, moves)
    ensures (forall k :: 0 <= k < |states| ==> 0 <= UsageAt(states[k]) <= 99)
      <==> forall i :: 0 <= i < |moves| ==> !EatsSpare(states[i], moves[i])
  {
    if forall k :: 0 <= k < |states| ==> 0 <= UsageAt(states[k]) <= 99 {
      forall i | 0 <= i < |moves|
        ensures !EatsSpare(states[i], moves[i])
      {
        assert UsageAt(states[i]) <= 99 && UsageAt(states[i + 1]) <= 99;
        StepKeepsRange(states, moves, i);
      }
    } else if forall i :: 0 <= i < |moves| ==> !EatsSpare(states[i], moves[i]) {
      forall k | 0 <= k < |states|
        ensures 0 <= UsageAt(states[k]) <= 99
      {
        RangeUpTo(states, moves, k);
      }
    }
  }

  // ----- small records

  /** The put has not reserved its slots yet. */
  ghost predicate Pending(pc: Pc) {
    pc.PutTail? || pc.PutFreeHead? || pc.PutFreeTail? || pc.PutNewTail? || pc.PutWrapHead? || pc.PutCas?
  }

  ghost predicate SmallAt(s: State, t: int) {
    0 <= t < |s.threads| && Pending(s.threads[t]) ==> |s.threads[t].rec| < RESERVE_BLOCK_COUNT
  }

  ghost predicate SmallPuts(moves: seq<Move>, n: nat) {
    forall i :: 0 <= i < n && i < |moves| && moves[i].BeginPut? ==> |moves[i].rec| < RESERVE_BLOCK_COUNT
  }

  lemma PutStaysPending(s: State, t: nat, pc: Pc, junk: nat)
    requires t < |s.threads| && IsPut(pc)
    ensures var pc' := PutStep(s, t, pc, junk).threads[t]; Pending(pc') ==> Pending(pc) && pc'.rec == pc.rec
  {
  }

  lemma GetIsNotPending(s: State, t: nat, pc: Pc, patient: bool)
    requires t < |s.threads| && !IsPut(pc) && !pc.Idle?
    ensures !Pending(GetStep(s, t, pc, patient).threads[t])
  {
  }

  lemma PutSetsOwnThread(s: State, t: nat, pc: Pc, junk: nat)
    requires t < |s.threads|
    ensures PutStep(s, t, pc, junk).threads == s.threads[t := PutStep(s, t, pc, junk).threads[t]]
  {
  }

  lemma GetSetsOwnThread(s: State, t: nat, pc: Pc, patient: bool)
    requires t < |s.threads|
    ensures GetStep(s, t, pc, patient).threads == s.threads[t := GetStep(s, t, pc, patient).threads[t]]
  {
  }

  lemma SetsOwnThread(s: State, m: Move)
    requires Enabled(s, m)
    ensures |Apply(s, m).threads| == |s.threads|
    ensures Apply(s, m).threads == s.threads[m.t := Apply(s, m).threads[m.t]]
  {
    if m.Go? && IsPut(s.threads[m.t]) {
      PutSetsOwnThread(s, m.t, s.threads[m.t], m.junk);
    } else if m.Go? {
      GetSetsOwnThread(s, m.t, s.threads[m.t], m.patient);
    }
  }

  lemma OwnStep(s: State, m: Move)
    requires Enabled(s, m) && m.Go?
    ensures |Apply(s, m).threads| == |s.threads|
    ensures var pc, pc' := s.threads[m.t], Apply(s, m).threads[m.t];
      Pending(pc') ==> Pending(pc) && pc'.rec == pc.rec
  {
    SetsOwnThread(s, m);
    if IsPut(s.threads[m.t]) {
      PutStaysPending(s, m.t, s.threads[m.t], m.junk);
    } else {
      GetIsNotPending(s, m.t, s.threads[m.t], m.patient);
    }
  }

  lemma SmallStep(s: State, s': State, m: Move, t: nat)
    requires Step(s, s', m) && SmallAt(s, t) && (m.BeginPut? ==> |m.rec| < RESERVE_BLOCK_COUNT)
    ensures SmallAt(s', t)
  {
    SetsOwnThread(s, m);
    if m.t == t && m.Go? {
      OwnStep(s, m);
    }
  }

  lemma {:induction false} SmallThroughout(states: seq<State>, moves: seq<Move>, n: nat, t: nat)
    requires CleanRun(states, moves) && n < |states| && SmallPuts(moves, n)
    ensures SmallAt(states[n], t)
  {
    if n > 0 {
      SmallThroughout(states, moves, n - 1, t);
      assert Step(states[n - 1], states[n], moves[n - 1]);
      SmallStep(states[n - 1], states[n], moves[n - 1], t);
    }
  }

  /** If all records need fewer than 100 slots, usage is 0 to 99 at every moment, however puts and gets overlap. */
  lemma SmallRecordsStayInRange(states: seq<State>, moves: seq<Move>)
    requires CleanRun(states, moves) && SmallPuts(moves, |moves|)
    ensures forall k :: 0 <= k < |states| ==> 0 <= UsageAt(states[k]) <= 99
  {
    forall i | 0 <= i < |moves|
      ensures !EatsSpare(states[i], moves[i])
    {
      if EatsSpare(states[i], moves[i]) {
        SmallThroughout(states, moves, i, moves[i].t);
        ReservationKeepsSpare(states, moves, i);
      }
    }
    UsageStaysInRange(states, moves);
  }
}
