/** What overlapping puts and gets guarantee in every run without the hazards. */
module RingTheorems {
  import opened Common
  import opened RingLayout
  import opened RingMachine
  import opened RingInvariant
  import opened RingSteps

  ghost predicate CleanRun(states: seq<State>, moves: seq<Move>) {
    && |states| == |moves| + 1
    && Init(states[0])
    && forall i {:trigger moves[i]} :: 0 <= i < |moves| ==>
         Step(states[i], states[i + 1], moves[i]) && !Hazard(states[i], moves[i])
  }

  lemma {:induction false} CleanRunKeeps(states: seq<State>, moves: seq<Move>, i: nat)
    requires CleanRun(states, moves) && i < |states|
    ensures Inv(states[i])
  {
    if i == 0 {
      InitHolds(states[0]);
    } else {
      CleanRunKeeps(states, moves, i - 1);
      StepKeeps(states[i - 1], states[i], moves[i - 1]);
    }
  }

  // ----- the abstract queue

  ghost function Recs(entries: seq<Entry>): seq<seq<int>> {
    if entries == [] then [] else [entries[0].rec] + Recs(entries[1..])
  }

  lemma {:induction false} RecsAppend(entries: seq<Entry>, e: Entry)
    ensures Recs(entries + [e]) == Recs(entries) + [e.rec]
  {
    if entries == [] {
      assert (entries + [e])[1..] == [];
    } else {
      RecsAppend(entries[1..], e);
      assert (entries + [e])[1..] == entries[1..] + [e];
    }
  }

  /** Reserved and not yet claimed, in the order of the reservations. */
  ghost function Queue(s: State): seq<seq<int>> {
    if Claimed(s) <= |s.log| then Recs(s.log[Claimed(s)..]) else []
  }

  ghost predicate Reserves(s: State, m: Move) {
    m.Go? && m.t < |s.threads| && s.threads[m.t].PutCas? && s.tail.slot == s.threads[m.t].t.slot
  }

  ghost predicate Claims(s: State, m: Move) {
    m.Go? && m.t < |s.threads| && s.threads[m.t].GetCas? && s.head.slot == s.threads[m.t].from.slot
  }

  /** The record that the thread asked last to be put. */
  ghost function Asked(moves: seq<Move>, t: nat): Option<seq<int>> {
    if moves == [] then None
    else
      var m := moves[|moves| - 1];
      if m.BeginPut? && m.t == t then Some(m.rec) else Asked(moves[..|moves| - 1], t)
  }

  predicate BeforeCas(pc: Pc) {
    pc.PutTail? || pc.PutFreeHead? || pc.PutFreeTail? || pc.PutNewTail? || pc.PutWrapHead? || pc.PutCas?
  }

  lemma PutKeepsRecord(s: State, t: nat, junk: nat)
    requires t < |s.threads| && IsPut(s.threads[t]) && BeforeCas(PutStep(s, t, s.threads[t], junk).threads[t])
    ensures BeforeCas(s.threads[t]) && PutStep(s, t, s.threads[t], junk).threads[t].rec == s.threads[t].rec
  {
  }

  lemma GetHasNoRecord(s: State, t: nat, patient: bool)
    requires t < |s.threads| && !IsPut(s.threads[t])
    ensures !BeforeCas(GetStep(s, t, s.threads[t], patient).threads[t])
  {
  }

  lemma PutStays(s: State, t: nat, junk: nat, u: nat)
    requires t < |s.threads| && u < |s.threads| && u != t
    ensures |PutStep(s, t, s.threads[t], junk).threads| == |s.threads|
    ensures PutStep(s, t, s.threads[t], junk).threads[u] == s.threads[u]
  {
  }

  lemma GetStays(s: State, t: nat, patient: bool, u: nat)
    requires t < |s.threads| && u < |s.threads| && u != t
    ensures |GetStep(s, t, s.threads[t], patient).threads| == |s.threads|
    ensures GetStep(s, t, s.threads[t], patient).threads[u] == s.threads[u]
  {
  }

  lemma OthersStay(s: State, s': State, m: Move, t: nat)
    requires Step(s, s', m) && t < |s.threads| && m.t != t
    ensures |s'.threads| == |s.threads| && s'.threads[t] == s.threads[t]
  {
    if m.Go? {
      if IsPut(s.threads[m.t]) {
        PutStays(s, m.t, m.junk, t);
      } else {
        GetStays(s, m.t, m.patient, t);
      }
    }
  }

  lemma KeepsRecord(s: State, s': State, m: Move, t: nat)
    requires Step(s, s', m) && |s'.threads| == |s.threads| && t < |s.threads| && BeforeCas(s'.threads[t])
    requires !(m.BeginPut? && m.t == t)
    ensures BeforeCas(s.threads[t]) && s.threads[t].rec == s'.threads[t].rec
  {
    if m.t != t {
      OthersStay(s, s', m, t);
    } else if m.Go? {
      if IsPut(s.threads[t]) {
        PutKeepsRecord(s, t, m.junk);
      } else {
        GetHasNoRecord(s, t, m.patient);
      }
    }
  }

  lemma ThreadsStay(s: State, s': State, m: Move)
    requires Step(s, s', m)
    ensures |s'.threads| == |s.threads|
  {
  }

  /** The record of a put is the one that was asked for. */
  lemma {:induction false} PutIsRequest(states: seq<State>, moves: seq<Move>, n: nat, t: nat)
    requires CleanRun(states, moves) && n <= |moves| && t < |states[n].threads| && BeforeCas(states[n].threads[t])
    ensures Asked(moves[..n], t) == Some(states[n].threads[t].rec)
  {
    if n > 0 {
      assert Step(states[n - 1], states[n], moves[n - 1]);
      assert moves[..n][..n - 1] == moves[..n - 1];
      if !(moves[n - 1].BeginPut? && moves[n - 1].t == t) {
        ThreadsStay(states[n - 1], states[n], moves[n - 1]);
        KeepsRecord(states[n - 1], states[n], moves[n - 1], t);
        PutIsRequest(states, moves, n - 1, t);
      }
    }
  }

  /**
   The queue grows at its end by a successful CAS on tail_pos, by the record that the thread asked to be put, and
   loses its first record by a successful CAS on head_pos, after that record's token has been written; every other
   step leaves it alone.
   */
  lemma StepRefines(states: seq<State>, moves: seq<Move>, i: nat)
    requires CleanRun(states, moves) && i < |moves|
    ensures var s, s', m := states[i], states[i + 1], moves[i];
      && (Reserves(s, m) ==>
            Asked(moves[..i], m.t).Some? && Queue(s') == Queue(s) + [Asked(moves[..i], m.t).value])
      && (Claims(s, m) ==>
            (&& Queue(s) != [] && Queue(s') == Queue(s)[1..] && s'.threads[m.t].GetCopy?
             && Claimed(s) < |s.done| && s.done[Claimed(s)] && s'.taker == s.taker + [m.t]))
      && (!Reserves(s, m) && !Claims(s, m) ==> Queue(s') == Queue(s) && s'.taker == s.taker)
  {
    CleanRunKeeps(states, moves, i);
    CleanRunKeeps(states, moves, i + 1);
    var s, s', m := states[i], states[i + 1], moves[i];
    assert Step(s, s', m) && !Hazard(s, m);
    if Reserves(s, m) {
      var c := Claimed(s);
      assert s'.log[c..] == s.log[c..] + [NewEntry(m.t, s.threads[m.t])];
      RecsAppend(s.log[c..], NewEntry(m.t, s.threads[m.t]));
      PutIsRequest(states, moves, i, m.t);
    } else if Claims(s, m) {
      assert ThreadOk(s, m.t);
      assert s.log[Claimed(s)..][1..] == s.log[Claimed(s) + 1..];
    } else {
      NoOther(s, s', m);
    }
  }

  lemma NoOther(s: State, s': State, m: Move)
    requires Step(s, s', m) && !Hazard(s, m) && !Reserves(s, m) && !Claims(s, m)
    ensures s'.log == s.log && s'.taker == s.taker
  {
  }

  // ----- writers keep out of each other's way

  predicate Writing(pc: Pc, i: nat) {
    (pc.PutMark? || pc.PutLength? || pc.PutChunk? || pc.PutToken?) && pc.i == i
  }

  /** Two writers between CAS and token have reservations without a common slot, inside the used part of the ring. */
  lemma WritersAreApart(states: seq<State>, moves: seq<Move>, n: nat, t: nat, u: nat, i: nat, j: nat, x: nat)
    requires CleanRun(states, moves) && n < |states|
    requires t < |states[n].threads| && u < |states[n].threads| && t != u
    requires Writing(states[n].threads[t], i) && Writing(states[n].threads[u], j)
    ensures i != j && i < |states[n].log| && j < |states[n].log|
    ensures !(Covers(states[n].g, states[n].log[i], x) && Covers(states[n].g, states[n].log[j], x))
    ensures Covers(states[n].g, states[n].log[i], x) ==>
      InUse(states[n].g, states[n].head.slot, states[n].tail.slot, x)
  {
    var s := states[n];
    CleanRunKeeps(states, moves, n);
    assert ThreadOk(s, t) && ThreadOk(s, u);
    assert x < S(s) ==> Owns(s, i, x) && Owns(s, j, x);
    HeadBefore(s, i);
    assert EntryOk(s, i);
  }

  /** No writer's slot is still in the hands of a reader, or the other way round. */
  lemma ReadersAndWritersAreApart(states: seq<State>, moves: seq<Move>, n: nat, t: nat, u: nat, i: nat, j: nat, x: nat)
    requires CleanRun(states, moves) && n < |states|
    requires t < |states[n].threads| && u < |states[n].threads|
    requires Writing(states[n].threads[t], i)
    requires states[n].threads[u].GetCopy? && states[n].threads[u].i == j
    ensures i < |states[n].log| && j < |states[n].log|
    ensures !(Covers(states[n].g, states[n].log[i], x) && Covers(states[n].g, states[n].log[j], x))
  {
    var s := states[n];
    CleanRunKeeps(states, moves, n);
    assert ThreadOk(s, t) && ThreadOk(s, u);
    assert x < S(s) ==> Owns(s, i, x) && Owns(s, j, x);
  }

  // ----- readers

  predicate Holds(pc: Pc, i: nat) {
    (pc.GetCopy? || pc.GetClear?) && pc.i == i
  }

  /** A claimed record is in the hands of one reader, the one that claimed it. */
  lemma ClaimedOnce(states: seq<State>, moves: seq<Move>, n: nat, t: nat, u: nat, i: nat)
    requires CleanRun(states, moves) && n < |states|
    requires t < |states[n].threads| && u < |states[n].threads|
    requires Holds(states[n].threads[t], i) && Holds(states[n].threads[u], i)
    ensures t == u && i < Claimed(states[n]) && states[n].taker[i] == t
  {
    CleanRunKeeps(states, moves, n);
    assert ThreadOk(states[n], t) && ThreadOk(states[n], u);
  }

  /** What a reader has copied is the record as it was put. */
  lemma DeliveredAsPut(states: seq<State>, moves: seq<Move>, n: nat, t: nat)
    requires CleanRun(states, moves) && n < |states| && t < |states[n].threads|
    requires states[n].threads[t].GetClear?
    ensures states[n].threads[t].i < |states[n].log|
    ensures states[n].threads[t].got == states[n].log[states[n].threads[t].i].rec
  {
    CleanRunKeeps(states, moves, n);
    assert ThreadOk(states[n], t);
  }

  /** Reservations and claims are never taken back or reordered. */
  lemma {:induction false} HistoryGrows(states: seq<State>, moves: seq<Move>, i: nat, j: nat)
    requires CleanRun(states, moves) && i <= j < |states|
    ensures states[i].log <= states[j].log && states[i].taker <= states[j].taker
    ensures Claimed(states[j]) <= |states[j].log|
    decreases j
  {
    CleanRunKeeps(states, moves, j);
    if i < j {
      HistoryGrows(states, moves, i, j - 1);
      HistoryStep(states[j - 1], states[j], moves[j - 1]);
    }
  }

  lemma HistoryStep(s: State, s': State, m: Move)
    requires Step(s, s', m)
    ensures s.log <= s'.log && s.taker <= s'.taker
  {
  }

  /** The tail meets the head only when nothing is queued. */
  lemma EqualMeansEmpty(states: seq<State>, moves: seq<Move>, n: nat)
    requires CleanRun(states, moves) && n < |states|
    ensures states[n].head.slot == states[n].tail.slot <==> Claimed(states[n]) == |states[n].log|
    ensures Claimed(states[n]) == |states[n].log| <==> Queue(states[n]) == []
  {
    var s := states[n];
    CleanRunKeeps(states, moves, n);
    if Claimed(s) < |s.log| {
      assert EntryOk(s, Claimed(s));
    }
  }

  /** A get that reports the end of the queue, head unmoved, found the queue empty. */
  lemma NoneMeansEmpty(states: seq<State>, moves: seq<Move>, n: nat)
    requires CleanRun(states, moves) && n < |moves|
    requires moves[n].Go? && moves[n].t < |states[n].threads| && states[n].threads[moves[n].t].GetEnd?
    requires states[n].head == states[n].threads[moves[n].t].from && states[n + 1].threads[moves[n].t].Idle?
    ensures Queue(states[n]) == []
  {
    var s, t := states[n], moves[n].t;
    CleanRunKeeps(states, moves, n);
    assert ThreadOk(s, t) && Step(s, states[n + 1], moves[n]);
    if Claimed(s) < |s.log| {
      BeforeTail(s, s.threads[t].head);
    }
  }
}
