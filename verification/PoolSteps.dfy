/** Every event of the thread pool keeps the invariant; the interesting one fills the barrier. */
module PoolSteps {
  import opened PoolMachine
  import opened PoolInvariant

  // ----- the tasks in hand

  ghost function HeldSet(ws: seq<Worker>): set<int> {
    set w | 0 <= w < |ws| && Has(ws[w], Holding) :: Held(ws[w])
  }

  lemma {:induction false} HeldCount(ws: seq<Worker>, fate: seq<Fate>)
    requires forall w {:trigger HandKnown(ws, fate, w)} :: 0 <= w < |ws| ==> HandKnown(ws, fate, w)
    ensures |HeldSet(ws)| == Count(ws, Holding)
  {
    if ws == [] {
      assert HeldSet(ws) == {};
    } else {
      var n := |ws| - 1;
      forall w | 0 <= w < n
        ensures HandKnown(ws[..n], fate, w)
      {
        assert HandKnown(ws, fate, w);
      }
      HeldCount(ws[..n], fate);
      assert HandKnown(ws, fate, n);
      forall w | 0 <= w < n && Has(ws[w], Holding)
        ensures Has(ws[n], Holding) ==> Held(ws[w]) != Held(ws[n])
      {
        assert HandKnown(ws, fate, w);
      }
      assert forall w :: 0 <= w < n ==> ws[..n][w] == ws[w];
      if Has(ws[n], Holding) {
        assert HeldSet(ws) == HeldSet(ws[..n]) + {Held(ws[n])};
        assert Held(ws[n]) !in HeldSet(ws[..n]);
      } else {
        assert HeldSet(ws) == HeldSet(ws[..n]);
      }
    }
  }

  lemma SubsetFull(a: set<int>, b: set<int>)
    requires a <= b && |a| == |b|
    ensures a == b
  {
    assert b == a + (b - a);
    assert b - a == {};
  }

  // ----- filling the barrier

  ghost predicate HoldsCurrent(p: Pool, w: nat)
    requires w < Size(p)
  {
    var i := Held(p.workers[w]);
    0 <= i < |p.tasks| && p.tasks[i] == Gate(p.gen)
  }

  /**
   When every worker holds a gate of the round, these are all its gates: nothing before the last one
   is queued or running.
   */
  lemma AllInMeansDone(p: Pool)
    requires FatesOf(p) && Rounds(p) && Tally(p) && Last(p) && Stops(p)
    requires forall w :: 0 <= w < Size(p) ==> HoldsCurrent(p, w)
    requires GatesPushed(p) == Size(p) && !p.waiter.NotWaiting?
    ensures forall i :: i in CurrentGates(p) ==> i < p.popped
    ensures FinishedBefore(p, p.lastGate)
  {
    HeldCount(p.workers, p.fate);
    CountBounds(p.workers, Holding);
    forall w | 0 <= w < Size(p)
      ensures Has(p.workers[w], Holding)
    {
      assert HoldsCurrent(p, w);
    }
    forall x | x in HeldSet(p.workers)
      ensures x in CurrentGates(p)
    {
      var w :| 0 <= w < Size(p) && Has(p.workers[w], Holding) && Held(p.workers[w]) == x;
      assert HoldsCurrent(p, w);
    }
    SubsetFull(HeldSet(p.workers), CurrentGates(p));
    forall i | i in CurrentGates(p)
      ensures i < p.popped
    {
      var w :| 0 <= w < Size(p) && Has(p.workers[w], Holding) && Held(p.workers[w]) == i;
      assert HandKnown(p.workers, p.fate, w) && FateKnown(p.workers, p.fate, p.popped, i);
    }
    if Size(p) > 0 {
      assert p.lastGate - 1 in CurrentGates(p);
    }
    forall i | 0 <= i < p.lastGate && p.tasks[i].User?
      ensures p.fate[i] == Done
    {
      assert FateKnown(p.workers, p.fate, p.popped, i);
      assert p.fate[i].Running? ==> HoldsCurrent(p, p.fate[i].worker);
    }
  }

  /** The arrival that fills the barrier finds every worker with a gate of the round. */
  lemma BarrierFull(p: Pool, e: Event)
    requires FatesOf(p) && Rounds(p) && Tally(p) && Enabled(p, e)
    requires p.arrived == Size(p)
    requires e.ArriveWorker? || e.ArriveWaiter?
    ensures GatesPushed(p) == Size(p) && !p.waiter.NotWaiting?
    ensures e.ArriveWorker? ==> WaiterIn(p)
    ensures forall w :: 0 <= w < Size(p) ==> HoldsCurrent(p, w)
    ensures forall w :: 0 <= w < Size(p) ==> p.workers[w].pc.InBarrier? || e == ArriveWorker(w)
  {
    var ws := p.workers;
    CountBounds(ws, InGen(p.gen));
    if e.ArriveWorker? {
      var w := e.w;
      var x := Worker(InBarrier(ws[w].pc.task, p.gen), false);
      CountSet(ws, w, x, InGen(p.gen));
      CountBounds(ws[w := x], InGen(p.gen));
      assert Count(ws[w := x], InGen(p.gen)) == Size(p);
      assert forall v :: 0 <= v < Size(p) && v != w ==> ws[w := x][v] == ws[v] && Has(ws[w := x][v], InGen(p.gen));
    }
    forall w | 0 <= w < Size(p)
      ensures HoldsCurrent(p, w)
    {
      assert HandKnown(ws, p.fate, w) && RoundKnown(p, w);
    }
  }

  // ----- the parts that speak of the barrier

  /** Before a release the gates of the round grow with the pushes; at it a new round starts without gates. */
  lemma CurrentGatesAfter(p: Pool, e: Event)
    requires FatesOf(p) && Rounds(p) && Enabled(p, e)
    ensures Apply(p, e).gen == p.gen ==>
      CurrentGates(Apply(p, e)) == CurrentGates(p) + if e.WaiterPush? then {|p.tasks|} else {}
    ensures Apply(p, e).gen != p.gen ==> CurrentGates(Apply(p, e)) == {} && p.arrived == Size(p)
    ensures Apply(p, e).gen != p.gen ==> e.ArriveWorker? || e.ArriveWaiter?
  {
    if Apply(p, e).gen != p.gen {
      forall i | 0 <= i < |p.tasks|
        ensures p.tasks[i] != Gate(p.gen + 1)
      {
        assert GateKnown(p, i);
      }
    }
  }

  /** How the number of workers inside the current generation changes. */
  lemma InsideAfter(p: Pool, e: Event)
    requires FatesOf(p) && Rounds(p) && Enabled(p, e)
    ensures Apply(p, e).gen == p.gen ==>
      Count(Apply(p, e).workers, InGen(p.gen)) == Count(p.workers, InGen(p.gen)) + if e.ArriveWorker? then 1 else 0
    ensures Apply(p, e).gen == p.gen + 1 ==> Count(Apply(p, e).workers, InGen(p.gen + 1)) == 0
  {
    var p' := Apply(p, e);
    var w := WorkerOf(e);
    if w >= 0 {
      CountSet(p.workers, w, p'.workers[w], InGen(p.gen));
      assert HandKnown(p.workers, p.fate, w) && RoundKnown(p, w);
    }
    if p'.gen == p.gen + 1 {
      CountBounds(p'.workers, InGen(p.gen + 1));
      forall v | 0 <= v < Size(p)
        ensures !Has(p'.workers[v], InGen(p.gen + 1))
      {
        assert HandKnown(p.workers, p.fate, v) && RoundKnown(p, v);
      }
    }
  }

  lemma TallyKeptWithin(p: Pool, e: Event)
    requires FatesOf(p) && Rounds(p) && Tally(p) && Enabled(p, e)
    requires Apply(p, e).gen == p.gen
    ensures Tally(Apply(p, e))
  {
    CurrentGatesAfter(p, e);
    InsideAfter(p, e);
  }

  lemma TallyReleased(p: Pool, e: Event)
    requires FatesOf(p) && Rounds(p) && Tally(p) && Enabled(p, e)
    requires Apply(p, e).gen != p.gen
    ensures Tally(Apply(p, e))
  {
    CurrentGatesAfter(p, e);
    InsideAfter(p, e);
    BarrierFull(p, e);
  }

  lemma GatesKept(p: Pool, e: Event, i: nat)
    requires FatesOf(p) && Rounds(p) && Enabled(p, e)
    requires Apply(p, e).gen == p.gen && i < |Apply(p, e).tasks| == |Apply(p, e).fate|
    ensures GateKnown(Apply(p, e), i)
  {
    assert i < |p.tasks| ==> GateKnown(p, i) && FateKnown(p.workers, p.fate, p.popped, i);
    if e.LeaveWorker? {
      assert HandKnown(p.workers, p.fate, e.w) && RoundKnown(p, e.w);
    }
  }

  lemma WorkersKept(p: Pool, e: Event, w: nat)
    requires FatesOf(p) && Rounds(p) && Enabled(p, e)
    requires Apply(p, e).gen == p.gen && w < Size(p) && |Apply(p, e).tasks| == |Apply(p, e).fate|
    ensures RoundKnown(Apply(p, e), w)
  {
    assert HandKnown(p.workers, p.fate, w) && RoundKnown(p, w);
    assert p.popped < |p.tasks| ==> GateKnown(p, p.popped);
  }

  lemma RoundsKept(p: Pool, e: Event)
    requires FatesOf(p) && Rounds(p) && Enabled(p, e)
    requires Apply(p, e).gen == p.gen
    ensures FatesOf(Apply(p, e)) && Rounds(Apply(p, e))
  {
    FatesKept(p, e);
    var p' := Apply(p, e);
    forall i | 0 <= i < |p'.tasks|
      ensures GateKnown(p', i)
    {
      GatesKept(p, e, i);
    }
    forall w | 0 <= w < Size(p')
      ensures RoundKnown(p', w)
    {
      WorkersKept(p, e, w);
    }
  }

  lemma RoundsReleased(p: Pool, e: Event)
    requires Inv(p) && Enabled(p, e)
    requires Apply(p, e).gen != p.gen
    ensures FatesOf(Apply(p, e)) && Rounds(Apply(p, e)) && FinishedBefore(Apply(p, e), p.lastGate)
  {
    FatesKept(p, e);
    CurrentGatesAfter(p, e);
    BarrierFull(p, e);
    AllInMeansDone(p);
    var p' := Apply(p, e);
    forall i | 0 <= i < |p'.tasks|
      ensures GateKnown(p', i)
    {
      assert GateKnown(p, i);
      assert p.tasks[i] == Gate(p.gen) ==> i in CurrentGates(p);
    }
    forall w | 0 <= w < Size(p)
      ensures RoundKnown(p', w)
    {
      assert HandKnown(p.workers, p.fate, w) && RoundKnown(p, w);
    }
  }

  lemma FinishedStays(p: Pool, e: Event, n: nat)
    requires FatesOf(p) && FinishedBefore(p, n) && Enabled(p, e)
    ensures FinishedBefore(Apply(p, e), n)
  {
    var w := WorkerOf(e);
    if w >= 0 {
      assert HandKnown(p.workers, p.fate, w);
    }
  }

  lemma LastKept(p: Pool, e: Event)
    requires Inv(p) && Enabled(p, e)
    ensures Last(Apply(p, e))
  {
    var p' := Apply(p, e);
    if p'.gen != p.gen {
      RoundsReleased(p, e);
      CurrentGatesAfter(p, e);
      BarrierFull(p, e);
    } else if p.waiter.Blocked? && p.waiter.round < p.gen {
      FinishedStays(p, e, p.lastGate);
    }
  }

  lemma StepKeeps(p: Pool, p': Pool, e: Event)
    requires Inv(p) && Step(p, p', e)
    ensures Inv(p')
  {
    FatesKept(p, e);
    WakesKept(p, e);
    StopsKept(p, e);
    LastKept(p, e);
    if p'.gen == p.gen {
      TallyKeptWithin(p, e);
      RoundsKept(p, e);
    } else {
      TallyReleased(p, e);
      RoundsReleased(p, e);
    }
  }
}
