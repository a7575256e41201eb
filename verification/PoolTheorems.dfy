/** What the thread pool guarantees over every run. */
module PoolTheorems {
  import opened PoolMachine
  import opened PoolInvariant
  import opened PoolSteps

  ghost predicate Run(pools: seq<Pool>, events: seq<Event>) {
    && |pools| == |events| + 1
    && Init(pools[0])
    && forall i {:trigger events[i]} :: 0 <= i < |events| ==> Step(pools[i], pools[i + 1], events[i])
  }

  lemma {:induction false} RunKeeps(pools: seq<Pool>, events: seq<Event>, i: nat)
    requires Run(pools, events) && i < |pools|
    ensures Inv(pools[i])
  {
    if i == 0 {
      InitHolds(pools[0]);
    } else {
      RunKeeps(pools, events, i - 1);
      StepKeeps(pools[i - 1], pools[i], events[i - 1]);
    }
  }

  // ----- no lost wake-up

  /** While tasks are queued the semaphore is positive, a post is due, or some worker will look at the queue. */
  lemma NoLostWakeUp(pools: seq<Pool>, events: seq<Event>, i: nat)
    requires Run(pools, events) && i < |pools|
    requires pools[i].popped < |pools[i].tasks| && !pools[i].stopAll
    ensures pools[i].sem > 0 || PostsDue(pools[i]) > 0
      || exists w :: 0 <= w < Size(pools[i]) && pools[i].workers[w].woken
           && (pools[i].workers[w].pc.Top? || pools[i].workers[w].pc.Look?)
  {
    var p := pools[i];
    RunKeeps(pools, events, i);
    if p.sem == 0 && PostsDue(p) == 0 {
      CountBounds(p.workers, Woken);
      var w :| 0 <= w < Size(p) && Has(p.workers[w], Woken);
      assert WorkerPlain(p.workers[w], p.stopAll);
    }
  }

  // ----- wait()

  /** When wait() can return, every user task queued before its last barrier task is finished. */
  lemma WaitMeansDone(pools: seq<Pool>, events: seq<Event>, i: nat, k: nat)
    requires Run(pools, events) && i < |events| && events[i] == ReturnFromWait
    requires k < pools[i].lastGate <= |pools[i].tasks| && pools[i].tasks[k].User?
    ensures k < |pools[i].fate| && pools[i].fate[k] == Done
  {
    RunKeeps(pools, events, i);
    assert Enabled(pools[i], events[i]);
  }

  lemma GateIsNew(p: Pool, p': Pool, e: Event, before: seq<Task>)
    requires Step(p, p', e) && Size(p) > 0 && before <= p.tasks && !e.BeginWait?
    requires p.waiter == PushGate(0) || p.lastGate > |before|
    ensures Size(p') == Size(p) && before <= p'.tasks
    ensures p'.waiter == PushGate(0) || p'.lastGate > |before|
  {
  }

  /** From the call of wait() on, its last gate lies behind everything queued before the call. */
  lemma {:induction false} GateFollowsCall(pools: seq<Pool>, events: seq<Event>, call: nat, i: nat)
    requires Run(pools, events) && call < i <= |events|
    requires events[call] == BeginWait && Size(pools[call]) > 0
    requires forall k :: call < k < i ==> !events[k].BeginWait?
    ensures Size(pools[i]) > 0 && pools[call].tasks <= pools[i].tasks
    ensures pools[i].waiter == PushGate(0) || pools[i].lastGate > |pools[call].tasks|
  {
    if i > call + 1 {
      GateFollowsCall(pools, events, call, i - 1);
      GateIsNew(pools[i - 1], pools[i], events[i - 1], pools[call].tasks);
    } else {
      assert Step(pools[call], pools[i], events[call]);
    }
  }

  /** Without workers the barrier has one party: wait() queues nothing and returns at once. */
  lemma WaitWithoutWorkers(pools: seq<Pool>, events: seq<Event>, call: nat)
    requires Run(pools, events) && call < |events| && events[call] == BeginWait && Size(pools[call]) == 0
    ensures var p := pools[call + 1];
      && Enabled(p, ArriveWaiter) && Enabled(Apply(p, ArriveWaiter), ReturnFromWait)
      && var q := Apply(Apply(p, ArriveWaiter), ReturnFromWait);
         q.waiter.NotWaiting? && q.tasks == pools[call].tasks && q.fate == pools[call].fate
  {
    RunKeeps(pools, events, call + 1);
    CountBounds(pools[call + 1].workers, InGen(pools[call + 1].gen));
    assert Step(pools[call], pools[call + 1], events[call]);
  }

  /** And no task ever runs there: those that the call found queued are still queued when it returns. */
  lemma {:induction false} NothingRunsWithoutWorkers(pools: seq<Pool>, events: seq<Event>, i: nat, k: nat)
    requires Run(pools, events) && i < |pools| && Size(pools[0]) == 0 && k < |pools[i].fate|
    ensures Size(pools[i]) == 0 && (pools[i].fate[k].Queued? || pools[i].fate[k].Deleted?)
  {
    if i > 0 {
      assert Step(pools[i - 1], pools[i], events[i - 1]);
      SizeStays(pools, events, i - 1);
      if k < |pools[i - 1].fate| {
        NothingRunsWithoutWorkers(pools, events, i - 1, k);
      }
    }
  }

  lemma {:induction false} SizeStays(pools: seq<Pool>, events: seq<Event>, i: nat)
    requires Run(pools, events) && i < |pools|
    ensures Size(pools[i]) == Size(pools[0])
  {
    if i > 0 {
      assert Step(pools[i - 1], pools[i], events[i - 1]);
      SizeStays(pools, events, i - 1);
    }
  }

  /**
   When wait() returns, every user task queued before it was called has finished exactly if the pool has workers.
   */
  lemma WaitFinishesCallersTasks(pools: seq<Pool>, events: seq<Event>, call: nat, i: nat, k: nat)
    requires Run(pools, events) && call < i < |events|
    requires events[call] == BeginWait && events[i] == ReturnFromWait
    requires forall m :: call < m < i ==> !events[m].BeginWait?
    requires k < |pools[call].tasks| && pools[call].tasks[k].User?
    ensures k < |pools[i].fate| && pools[i].fate[k] == Done <==> Size(pools[call]) > 0
  {
    if Size(pools[call]) > 0 {
      GateFollowsCall(pools, events, call, i);
      RunKeeps(pools, events, i);
      assert Enabled(pools[i], events[i]);
      WaitMeansDone(pools, events, i, k);
    } else if k < |pools[i].fate| {
      SizeStays(pools, events, call);
      NothingRunsWithoutWorkers(pools, events, i, k);
    }
  }

  ghost predicate Waits(p: Pool, x: Worker) {
    (x.pc.Sleep? && p.sem == 0) || (x.pc.InBarrier? && x.pc.gen == p.gen) || x.pc.Stopped?
  }

  /** A waiter blocked in an unreleased barrier always has a worker or a poster that can still move. */
  lemma NoDeadlock(pools: seq<Pool>, events: seq<Event>, i: nat)
    requires Run(pools, events) && i < |pools|
    requires pools[i].waiter.Blocked? && pools[i].waiter.round == pools[i].gen
    ensures pools[i].pushing > 0 || exists w :: 0 <= w < Size(pools[i]) && !Waits(pools[i], pools[i].workers[w])
  {
    var p := pools[i];
    RunKeeps(pools, events, i);
    if p.pushing == 0 && forall w :: 0 <= w < Size(p) ==> Waits(p, p.workers[w]) {
      SomeoneSleeps(p);
      CountBounds(p.workers, Woken);
      assert forall w :: 0 <= w < Size(p) ==> WorkerPlain(p.workers[w], p.stopAll);
      assert p.popped == |p.tasks|;
      GatesAreHeld(p);
    }
  }

  lemma SomeoneSleeps(p: Pool)
    requires Inv(p) && WaiterIn(p)
    requires forall w :: 0 <= w < Size(p) ==> Waits(p, p.workers[w])
    ensures Count(p.workers, Holding) < Size(p) && p.sem == 0 && !p.stopAll
  {
    CountBounds(p.workers, InGen(p.gen));
    CountBounds(p.workers, Holding);
    var w :| 0 <= w < Size(p) && !Has(p.workers[w], InGen(p.gen));
    assert WorkerPlain(p.workers[w], p.stopAll);
  }

  /** Once all tasks are popped the gates of the round are among the tasks in hand. */
  lemma GatesAreHeld(p: Pool)
    requires Inv(p) && p.popped == |p.tasks| && p.stopper.NotStopping?
    ensures GatesPushed(p) <= Count(p.workers, Holding)
  {
    HeldCount(p.workers, p.fate);
    forall i | i in CurrentGates(p)
      ensures i in HeldSet(p.workers)
    {
      assert GateKnown(p, i) && FateKnown(p.workers, p.fate, p.popped, i);
      assert Has(p.workers[p.fate[i].worker], Holding);
    }
    assert HeldSet(p.workers) == CurrentGates(p) + (HeldSet(p.workers) - CurrentGates(p));
  }

  // ----- exactly once

  ghost predicate Takes(p: Pool, e: Event, i: nat) {
    e.PopTask? && p.popped == i && i < |p.tasks|
  }

  ghost predicate Finishes(p: Pool, e: Event, i: nat) {
    (e.FinishUser? || e.LeaveWorker?) && e.w < Size(p) && Held(p.workers[e.w]) == i
  }

  ghost predicate Deletes(p: Pool, e: Event, i: nat) {
    e.ClearOne? && p.popped == i
  }

  ghost function Taken(pools: seq<Pool>, events: seq<Event>, n: nat, i: nat): nat
    requires n <= |events| < |pools|
  {
    if n == 0 then 0 else Taken(pools, events, n - 1, i) + if Takes(pools[n - 1], events[n - 1], i) then 1 else 0
  }

  ghost function Finished(pools: seq<Pool>, events: seq<Event>, n: nat, i: nat): nat
    requires n <= |events| < |pools|
  {
    if n == 0 then 0
    else Finished(pools, events, n - 1, i) + if Finishes(pools[n - 1], events[n - 1], i) then 1 else 0
  }

  ghost function Dropped(pools: seq<Pool>, events: seq<Event>, n: nat, i: nat): nat
    requires n <= |events| < |pools|
  {
    if n == 0 then 0
    else Dropped(pools, events, n - 1, i) + if Deletes(pools[n - 1], events[n - 1], i) then 1 else 0
  }

  ghost function FateOf(p: Pool, i: nat): Fate {
    if i < |p.fate| then p.fate[i] else Queued
  }

  /** One event moves a task from queued to running, from running to done, or from queued to deleted, or not at all. */
  lemma FateMoves(p: Pool, p': Pool, e: Event, i: nat)
    requires FatesOf(p) && Step(p, p', e)
    ensures Takes(p, e, i) ==> FateOf(p, i) == Queued && FateOf(p', i) == Running(e.w)
    ensures Finishes(p, e, i) ==> FateOf(p, i) == Running(e.w) && FateOf(p', i) == Done
    ensures Deletes(p, e, i) ==> FateOf(p, i) == Queued && FateOf(p', i) == Deleted
    ensures !Takes(p, e, i) && !Finishes(p, e, i) && !Deletes(p, e, i) ==> FateOf(p', i) == FateOf(p, i)
  {
    assert p.popped < |p.tasks| ==> FateKnown(p.workers, p.fate, p.popped, p.popped);
    var w := WorkerOf(e);
    if w >= 0 {
      assert HandKnown(p.workers, p.fate, w);
    }
  }

  /** Every task is taken at most once, finished only after that and at most once, or deleted once and never run. */
  lemma {:induction false} ExactlyOnce(pools: seq<Pool>, events: seq<Event>, n: nat, i: nat)
    requires Run(pools, events) && n <= |events|
    ensures Taken(pools, events, n, i) == if FateOf(pools[n], i).Running? || FateOf(pools[n], i).Done? then 1 else 0
    ensures Finished(pools, events, n, i) == if FateOf(pools[n], i).Done? then 1 else 0
    ensures Dropped(pools, events, n, i) == if FateOf(pools[n], i).Deleted? then 1 else 0
  {
    if n > 0 {
      ExactlyOnce(pools, events, n - 1, i);
      RunKeeps(pools, events, n - 1);
      FateMoves(pools[n - 1], pools[n], events[n - 1], i);
    }
  }

  /** Nothing is forgotten and nothing overtakes: what is no longer queued is exactly what came before the rest. */
  lemma StartedInOrder(pools: seq<Pool>, events: seq<Event>, n: nat, i: nat, j: nat)
    requires Run(pools, events) && n <= |events| && i <= j < |pools[n].tasks|
    ensures FateOf(pools[n], j) != Queued ==> Taken(pools, events, n, i) + Dropped(pools, events, n, i) == 1
    ensures FateOf(pools[n], i) == Queued ==> Taken(pools, events, n, j) + Dropped(pools, events, n, j) == 0
  {
    RunKeeps(pools, events, n);
    var p := pools[n];
    ExactlyOnce(pools, events, n, i);
    ExactlyOnce(pools, events, n, j);
    assert FateKnown(p.workers, p.fate, p.popped, i) && FateKnown(p.workers, p.fate, p.popped, j);
  }

  // ----- stop()

  /** How many more events a worker can take once the stop flag is up, its user task counting as one. */
  ghost function Fuel(w: Worker): nat {
    match w.pc
    case Stopped => 0
    case Top => 1
    case Sleep => 2
    case InBarrier(_, _) => 2
    case Run(_) => 3
    case Look => 4
  }

  ghost function FuelLeft(ws: seq<Worker>): nat {
    if ws == [] then 0 else FuelLeft(ws[..|ws| - 1]) + Fuel(ws[|ws| - 1])
  }

  lemma {:induction false} FuelSet(ws: seq<Worker>, w: nat, x: Worker)
    requires w < |ws|
    ensures FuelLeft(ws[w := x]) == FuelLeft(ws) - Fuel(ws[w]) + Fuel(x)
  {
    var n := |ws| - 1;
    if w == n {
      assert ws[w := x][..n] == ws[..n];
    } else {
      assert ws[w := x][..n] == ws[..n][w := x];
      FuelSet(ws[..n], w, x);
    }
  }

  lemma {:induction false} FuelBound(ws: seq<Worker>)
    ensures FuelLeft(ws) <= 4 * |ws|
  {
    if ws != [] {
      FuelBound(ws[..|ws| - 1]);
    }
  }

  ghost function WorkerEvents(events: seq<Event>): nat {
    if events == [] then 0
    else WorkerEvents(events[..|events| - 1]) + if WorkerOf(events[|events| - 1]) >= 0 then 1 else 0
  }

  lemma FuelDrops(p: Pool, p': Pool, e: Event)
    requires Inv(p) && Step(p, p', e) && p.stopAll
    ensures p'.stopAll && Size(p') == Size(p)
    ensures FuelLeft(p'.workers) + (if WorkerOf(e) >= 0 then 1 else 0) <= FuelLeft(p.workers)
  {
    var w := WorkerOf(e);
    if w >= 0 {
      FuelSet(p.workers, w, p'.workers[w]);
    }
  }

  lemma FuelDropsAt(pools: seq<Pool>, events: seq<Event>, i: nat)
    requires Run(pools, events) && i < |events| && pools[i].stopAll
    ensures pools[i + 1].stopAll && Size(pools[i + 1]) == Size(pools[i])
    ensures FuelLeft(pools[i + 1].workers) + (if WorkerOf(events[i]) >= 0 then 1 else 0) <= FuelLeft(pools[i].workers)
  {
    RunKeeps(pools, events, i);
    FuelDrops(pools[i], pools[i + 1], events[i]);
  }

  lemma WorkerEventsGrow(events: seq<Event>, from: nat, n: nat)
    requires from < n <= |events|
    ensures WorkerEvents(events[from..n])
      == WorkerEvents(events[from..n - 1]) + if WorkerOf(events[n - 1]) >= 0 then 1 else 0
  {
    assert events[from..n][..n - 1 - from] == events[from..n - 1];
  }

  /** After stop() raises the flag, the workers together take at most four events each, whatever else goes on. */
  lemma {:induction false} StopEndsSoon(pools: seq<Pool>, events: seq<Event>, from: nat, n: nat)
    requires Run(pools, events) && from <= n <= |events| && pools[from].stopAll
    ensures pools[n].stopAll && Size(pools[n]) == Size(pools[from])
    ensures WorkerEvents(events[from..n]) + FuelLeft(pools[n].workers) <= 4 * Size(pools[from])
  {
    if n == from {
      FuelBound(pools[from].workers);
    } else {
      StopEndsSoon(pools, events, from, n - 1);
      FuelDropsAt(pools, events, n - 1);
      WorkerEventsGrow(events, from, n);
    }
  }

  /** Remaining posts and the semaphore always cover every worker that can still go to sleep. */
  lemma PostsCoverSleepers(pools: seq<Pool>, events: seq<Event>, n: nat)
    requires Run(pools, events) && n < |pools| && pools[n].stopAll
    ensures pools[n].stopper.Posting?
    ensures Count(pools[n].workers, Blockable) <= pools[n].sem + pools[n].stopper.left
  {
    RunKeeps(pools, events, n);
  }

  /** With all posts made, a pool in which no worker can move has only stopped workers: stop()'s joins return. */
  lemma StopReachesAll(pools: seq<Pool>, events: seq<Event>, n: nat)
    requires Run(pools, events) && n < |pools|
    requires pools[n].stopper == Posting(0)
    requires forall e: Event :: WorkerOf(e) >= 0 ==> !Enabled(pools[n], e)
    ensures forall w :: 0 <= w < Size(pools[n]) ==> pools[n].workers[w].pc.Stopped?
  {
    var p := pools[n];
    RunKeeps(pools, events, n);
    CountBounds(p.workers, Blockable);
    forall i | 0 <= i < |p.tasks|
      ensures p.tasks[i] != Gate(p.gen)
    {
      assert i !in CurrentGates(p);
    }
    forall w | 0 <= w < Size(p)
      ensures p.workers[w].pc.Stopped?
    {
      assert HandKnown(p.workers, p.fate, w) && RoundKnown(p, w);
      assert !Enabled(p, TestStop(w)) && !Enabled(p, PopTask(w)) && !Enabled(p, WakeUp(w));
      assert !Enabled(p, FinishUser(w)) && !Enabled(p, ArriveWorker(w)) && !Enabled(p, LeaveWorker(w));
      assert WorkerOf(TestStop(w)) >= 0;
    }
  }
}
