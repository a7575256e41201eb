/** What every event of the thread pool keeps. */
module PoolInvariant {
  import opened PoolMachine

  // ----- counting workers

  /** What workers are counted by. */
  datatype Feature = Woken | Blockable | Holding | InGen(g: nat)

  /** The task in the hands of a worker, or -1. */
  ghost function Held(w: Worker): int {
    if w.pc.Run? then w.pc.task else if w.pc.InBarrier? then w.pc.held else -1
  }

  /** Blockable: may still reach the semaphore without testing the stop flag again. */
  ghost predicate Has(w: Worker, f: Feature) {
    match f
    case Woken => w.woken
    case Blockable => w.pc.Look? || w.pc.Sleep?
    case Holding => Held(w) >= 0
    case InGen(g) => w.pc.InBarrier? && w.pc.gen == g
  }

  ghost function Count(ws: seq<Worker>, f: Feature): nat {
    if ws == [] then 0 else Count(ws[..|ws| - 1], f) + if Has(ws[|ws| - 1], f) then 1 else 0
  }

  lemma {:induction false} CountSet(ws: seq<Worker>, w: nat, x: Worker, f: Feature)
    requires w < |ws|
    ensures Count(ws[w := x], f) == Count(ws, f) - (if Has(ws[w], f) then 1 else 0) + (if Has(x, f) then 1 else 0)
  {
    var n := |ws| - 1;
    if w == n {
      assert ws[w := x][..n] == ws[..n];
    } else {
      assert ws[w := x][..n] == ws[..n][w := x];
      CountSet(ws[..n], w, x, f);
    }
  }

  lemma {:induction false} CountBounds(ws: seq<Worker>, f: Feature)
    ensures Count(ws, f) <= |ws|
    ensures Count(ws, f) == |ws| <==> forall w :: 0 <= w < |ws| ==> Has(ws[w], f)
    ensures Count(ws, f) == 0 <==> forall w :: 0 <= w < |ws| ==> !Has(ws[w], f)
  {
    if ws != [] {
      var n := |ws| - 1;
      CountBounds(ws[..n], f);
      assert forall w :: 0 <= w < n ==> ws[..n][w] == ws[w];
      assert (forall w :: 0 <= w < |ws| ==> Has(ws[w], f)) ==> forall w :: 0 <= w < n ==> Has(ws[..n][w], f);
      assert (forall w :: 0 <= w < |ws| ==> !Has(ws[w], f)) ==> forall w :: 0 <= w < n ==> !Has(ws[..n][w], f);
    }
  }

  // ----- tasks and workers

  ghost predicate HandKnown(ws: seq<Worker>, fate: seq<Fate>, w: nat)
    requires w < |ws|
  {
    Held(ws[w]) >= 0 ==> Held(ws[w]) < |fate| && fate[Held(ws[w])] == Running(w)
  }

  ghost predicate FateKnown(ws: seq<Worker>, fate: seq<Fate>, popped: nat, i: nat)
    requires i < |fate|
  {
    && (fate[i] == Queued <==> popped <= i)
    && (fate[i].Running? ==> fate[i].worker < |ws| && Held(ws[fate[i].worker]) == i)
  }

  /** Queued exactly behind the pop position; running exactly in the hands of its worker. */
  ghost predicate Fates(ws: seq<Worker>, fate: seq<Fate>, popped: nat) {
    && popped <= |fate|
    && (forall i {:trigger FateKnown(ws, fate, popped, i)} :: 0 <= i < |fate| ==> FateKnown(ws, fate, popped, i))
    && (forall w {:trigger HandKnown(ws, fate, w)} :: 0 <= w < |ws| ==> HandKnown(ws, fate, w))
  }

  lemma FatesWorker(ws: seq<Worker>, fate: seq<Fate>, popped: nat, w: nat, x: Worker)
    requires Fates(ws, fate, popped) && w < |ws| && Held(x) == Held(ws[w])
    ensures Fates(ws[w := x], fate, popped)
  {
    var ws' := ws[w := x];
    forall i | 0 <= i < |fate|
      ensures FateKnown(ws', fate, popped, i)
    {
      assert FateKnown(ws, fate, popped, i);
    }
    forall v | 0 <= v < |ws|
      ensures HandKnown(ws', fate, v)
    {
      assert HandKnown(ws, fate, v);
    }
  }

  lemma FatesPush(ws: seq<Worker>, fate: seq<Fate>, popped: nat)
    requires Fates(ws, fate, popped)
    ensures Fates(ws, fate + [Queued], popped)
  {
    var fate' := fate + [Queued];
    forall i | 0 <= i <= |fate|
      ensures FateKnown(ws, fate', popped, i)
    {
      assert i < |fate| ==> FateKnown(ws, fate, popped, i);
    }
    forall v | 0 <= v < |ws|
      ensures HandKnown(ws, fate', v)
    {
      assert HandKnown(ws, fate, v);
    }
  }

  lemma FatesPop(ws: seq<Worker>, fate: seq<Fate>, popped: nat, w: nat, x: Worker)
    requires Fates(ws, fate, popped) && w < |ws| && Held(ws[w]) == -1
    requires popped < |fate| && Held(x) == popped
    ensures Fates(ws[w := x], fate[popped := Running(w)], popped + 1)
  {
    var ws', fate' := ws[w := x], fate[popped := Running(w)];
    assert FateKnown(ws, fate, popped, popped);
    var popped' := popped + 1;
    forall i | 0 <= i < |fate|
      ensures FateKnown(ws', fate', popped', i)
    {
      assert FateKnown(ws, fate, popped, i);
    }
    forall v | 0 <= v < |ws|
      ensures HandKnown(ws', fate', v)
    {
      assert HandKnown(ws, fate, v);
    }
  }

  lemma FatesFinish(ws: seq<Worker>, fate: seq<Fate>, popped: nat, w: nat, x: Worker)
    requires Fates(ws, fate, popped) && w < |ws| && 0 <= Held(ws[w]) < |fate| && Held(x) == -1
    ensures Fates(ws[w := x], fate[Held(ws[w]) := Done], popped)
  {
    assert HandKnown(ws, fate, w);
    var k := Held(ws[w]);
    var ws', fate' := ws[w := x], fate[k := Done];
    assert FateKnown(ws, fate, popped, k);
    forall i | 0 <= i < |fate|
      ensures FateKnown(ws', fate', popped, i)
    {
      assert FateKnown(ws, fate, popped, i);
    }
    forall v | 0 <= v < |ws|
      ensures HandKnown(ws', fate', v)
    {
      assert HandKnown(ws, fate, v);
    }
  }

  lemma FatesClear(ws: seq<Worker>, fate: seq<Fate>, popped: nat)
    requires Fates(ws, fate, popped) && popped < |fate|
    ensures Fates(ws, fate[popped := Deleted], popped + 1)
  {
    var fate' := fate[popped := Deleted];
    assert FateKnown(ws, fate, popped, popped);
    var popped' := popped + 1;
    forall i | 0 <= i < |fate|
      ensures FateKnown(ws, fate', popped', i)
    {
      assert FateKnown(ws, fate, popped, i);
    }
    forall v | 0 <= v < |ws|
      ensures HandKnown(ws, fate', v)
    {
      assert HandKnown(ws, fate, v);
    }
  }

  ghost predicate FatesOf(p: Pool) {
    |p.fate| == |p.tasks| && Fates(p.workers, p.fate, p.popped)
  }

  lemma FatesKept(p: Pool, e: Event)
    requires FatesOf(p) && Enabled(p, e)
    ensures FatesOf(Apply(p, e))
  {
    match e {
      case ExecutePush => FatesPush(p.workers, p.fate, p.popped);
      case WaiterPush => FatesPush(p.workers, p.fate, p.popped);
      case TestStop(w) => FatesWorker(p.workers, p.fate, p.popped, w, Apply(p, e).workers[w]);
      case WakeUp(w) => FatesWorker(p.workers, p.fate, p.popped, w, Worker(Top, true));
      case Interrupt(w) => FatesWorker(p.workers, p.fate, p.popped, w, Worker(Top, false));
      case ArriveWorker(w) =>
        FatesWorker(p.workers, p.fate, p.popped, w, Worker(InBarrier(p.workers[w].pc.task, p.gen), false));
      case PopTask(w) =>
        if p.popped < |p.tasks| {
          FatesPop(p.workers, p.fate, p.popped, w, Worker(Run(p.popped), false));
        } else {
          FatesWorker(p.workers, p.fate, p.popped, w, Worker(Sleep, false));
        }
      case FinishUser(w) => FatesFinish(p.workers, p.fate, p.popped, w, Worker(Top, false));
      case LeaveWorker(w) => FatesFinish(p.workers, p.fate, p.popped, w, Worker(Top, false));
      case ClearOne => FatesClear(p.workers, p.fate, p.popped);
      case _ =>
    }
  }

  // ----- the semaphore

  ghost function PostsDue(p: Pool): nat {
    p.pushing + if p.waiter.PostGate? then 1 else 0
  }

  ghost predicate WorkerPlain(x: Worker, stopAll: bool) {
    (x.woken ==> x.pc.Top? || x.pc.Look?) && (x.pc.Stopped? ==> stopAll)
  }

  /** Every queued task is covered by a unit of the semaphore, a post to come, or a worker that woke for it. */
  ghost predicate Wakes(p: Pool) {
    && (forall w :: 0 <= w < Size(p) ==> WorkerPlain(p.workers[w], p.stopAll))
    && (!p.stopAll ==> |p.tasks| - p.popped <= p.sem + PostsDue(p) + Count(p.workers, Woken))
  }

  lemma WakesKept(p: Pool, e: Event)
    requires Wakes(p) && Enabled(p, e)
    ensures Wakes(Apply(p, e))
  {
    var w := WorkerOf(e);
    if w >= 0 {
      CountSet(p.workers, w, Apply(p, e).workers[w], Woken);
    }
  }

  // ----- stopping

  ghost predicate Stops(p: Pool) {
    && (p.stopAll <==> p.stopper.Posting?)
    && (!p.waiter.NotWaiting? ==> p.stopper.NotStopping?)
    && (p.stopper.NotStopping? ==> forall i :: 0 <= i < |p.fate| ==> p.fate[i] != Deleted)
    && (p.stopper.Posting? ==> Count(p.workers, Blockable) <= p.sem + p.stopper.left)
  }

  lemma StopsKept(p: Pool, e: Event)
    requires Stops(p) && Enabled(p, e)
    ensures Stops(Apply(p, e))
  {
    var w := WorkerOf(e);
    if w >= 0 {
      CountSet(p.workers, w, Apply(p, e).workers[w], Blockable);
    }
    CountBounds(p.workers, Blockable);
  }

  // ----- the barrier

  ghost function CurrentGates(p: Pool): set<int> {
    set i | 0 <= i < |p.tasks| && p.tasks[i] == Gate(p.gen)
  }

  /** How many gates of the current round the waiter has pushed. */
  ghost function GatesPushed(p: Pool): nat {
    match p.waiter
    case NotWaiting => 0
    case PushGate(d) => d
    case PostGate(d) => d + 1
    case Blocked(r) => if r == p.gen then Size(p) else 0
  }

  /** A gate of an earlier round has been popped; one of the current round is queued, held, or deleted. */
  ghost predicate GateKnown(p: Pool, i: nat)
    requires i < |p.tasks| == |p.fate|
  {
    p.tasks[i].Gate? ==>
      && p.tasks[i].round <= p.gen
      && (p.popped <= i ==> p.tasks[i].round == p.gen)
      && (p.tasks[i].round == p.gen ==> p.fate[i] != Done)
  }

  /** A worker runs a user task or a gate of the current round; inside the barrier it holds a gate of its generation. */
  ghost predicate RoundKnown(p: Pool, w: nat)
    requires w < Size(p) && |p.fate| == |p.tasks|
  {
    var pc := p.workers[w].pc;
    && (pc.Run? && pc.task < |p.tasks| ==> p.tasks[pc.task] == User || p.tasks[pc.task] == Gate(p.gen))
    && (pc.InBarrier? && pc.held < |p.tasks| ==> pc.gen <= p.gen && p.tasks[pc.held] == Gate(pc.gen))
  }

  ghost predicate Rounds(p: Pool)
    requires |p.fate| == |p.tasks|
  {
    && (forall i {:trigger GateKnown(p, i)} :: 0 <= i < |p.tasks| ==> GateKnown(p, i))
    && (forall w {:trigger RoundKnown(p, w)} :: 0 <= w < Size(p) ==> RoundKnown(p, w))
  }

  ghost predicate WaiterIn(p: Pool) {
    p.waiter == Blocked(p.gen)
  }

  ghost predicate Tally(p: Pool) {
    && |CurrentGates(p)| == GatesPushed(p)
    && p.arrived == Count(p.workers, InGen(p.gen)) + (if WaiterIn(p) then 1 else 0)
    && p.arrived <= Size(p)
    && (p.waiter.PushGate? ==> p.waiter.done <= Size(p))
    && (p.waiter.PostGate? ==> p.waiter.done < Size(p))
    && (p.waiter.Blocked? ==> p.waiter.round <= p.gen)
  }

  ghost predicate FinishedBefore(p: Pool, n: nat) {
    && n <= p.popped <= |p.tasks| == |p.fate|
    && forall i :: 0 <= i < n && p.tasks[i].User? ==> p.fate[i] == Done
  }

  /** Where the current round's gates are, and, once it is released, that all before them is finished. */
  ghost predicate Last(p: Pool) {
    && p.lastGate <= |p.tasks|
    && (GatesPushed(p) > 0 ==> p.lastGate > 0 && p.tasks[p.lastGate - 1] == Gate(p.gen))
    && (Size(p) == 0 ==> p.lastGate == 0)
    && (p.waiter.Blocked? && p.waiter.round < p.gen ==> FinishedBefore(p, p.lastGate))
  }

  ghost predicate Inv(p: Pool) {
    FatesOf(p) && Wakes(p) && Stops(p) && Rounds(p) && Tally(p) && Last(p)
  }

  lemma InitHolds(p: Pool)
    requires Init(p)
    ensures Inv(p)
  {
    CountBounds(p.workers, InGen(0));
    assert CurrentGates(p) == {};
    forall i | 0 <= i < |p.fate|
      ensures FateKnown(p.workers, p.fate, p.popped, i)
    {
    }
    forall w | 0 <= w < Size(p)
      ensures HandKnown(p.workers, p.fate, w)
      ensures RoundKnown(p, w)
      ensures WorkerPlain(p.workers[w], p.stopAll)
    {
    }
  }
}
