/** The workers make progress: none spins, no task stays queued, nothing gets stuck, and stop() clears the queue. */
module PoolProgress {
  import opened PoolMachine
  import opened PoolInvariant
  import opened PoolTheorems

  // ----- a worker that is awake looks at the queue

  lemma OthersLeaveWorker(p: Pool, p': Pool, e: Event, w: nat)
    requires Step(p, p', e) && w < Size(p) && WorkerOf(e) != w
    ensures Size(p') == Size(p) && p'.workers[w] == p.workers[w]
  {
  }

  lemma {:induction false} WorkerStays(pools: seq<Pool>, events: seq<Event>, i: nat, j: nat, w: nat)
    requires PoolTheorems.Run(pools, events) && i <= j < |pools| && w < Size(pools[i])
    requires forall m :: i <= m < j ==> WorkerOf(events[m]) != w
    ensures w < Size(pools[j]) && pools[j].workers[w] == pools[i].workers[w]
    decreases j
  {
    if i < j {
      WorkerStays(pools, events, i, j - 1, w);
      OthersLeaveWorker(pools[j - 1], pools[j], events[j - 1], w);
    }
  }

  /**
   Of two events of a worker that was at the top of its loop, with no other of its events between them and the stop
   flag down at the first, the second takes the first queued task, or finds the queue empty and goes to sleep.
   */
  lemma TwoEventsTakeATask(pools: seq<Pool>, events: seq<Event>, i: nat, j: nat, w: nat)
    requires PoolTheorems.Run(pools, events) && i < j < |events| && WorkerOf(events[i]) == w && WorkerOf(events[j]) == w
    requires w < Size(pools[i]) && pools[i].workers[w].pc.Top? && !pools[i].stopAll
    requires forall m :: i < m < j ==> WorkerOf(events[m]) != w
    ensures var p, p' := pools[j], pools[j + 1];
      && w < Size(p') && p.popped <= |p.tasks| && p'.tasks == p.tasks
      && if p.popped < |p.tasks| then
           p'.popped == p.popped + 1 && p'.workers[w].pc == WorkerPc.Run(p.popped) && FateOf(p', p.popped) == Running(w)
         else p'.popped == p.popped && p'.workers[w].pc == Sleep
  {
    assert Step(pools[i], pools[i + 1], events[i]);
    WorkerStays(pools, events, i + 1, j, w);
    RunKeeps(pools, events, j);
    assert Step(pools[j], pools[j + 1], events[j]);
  }

  // ----- no worker spins

  datatype Kind = Posts | WakeUps | Interrupts | Pushes

  ghost predicate Is(e: Event, k: Kind) {
    match k
    case Posts => e.ExecutePost? || e.WaiterPost? || e.StopPost?
    case WakeUps => e.WakeUp?
    case Interrupts => e.Interrupt?
    case Pushes => e.ExecutePush? || e.WaiterPush?
  }

  /** How many of the first n events are of the kind. */
  ghost function Times(events: seq<Event>, n: nat, k: Kind): nat
    requires n <= |events|
  {
    if n == 0 then 0 else Times(events, n - 1, k) + if Is(events[n - 1], k) then 1 else 0
  }

  lemma EventCounts(p: Pool, p': Pool, e: Event)
    requires Step(p, p', e)
    ensures Size(p') == Size(p) && p.tasks <= p'.tasks && |p'.tasks| == |p.tasks| + if Is(e, Pushes) then 1 else 0
    ensures p'.sem + (if Is(e, WakeUps) then 1 else 0) == p.sem + if Is(e, Posts) then 1 else 0
  {
  }

  /** Every task was queued by an event or before the start, and every unit of the semaphore posted or there before. */
  lemma {:induction false} NothingFromNowhere(pools: seq<Pool>, events: seq<Event>, n: nat)
    requires PoolTheorems.Run(pools, events) && n <= |events|
    ensures pools[0].tasks <= pools[n].tasks && |pools[n].tasks| == |pools[0].tasks| + Times(events, n, Pushes)
    ensures pools[n].sem + Times(events, n, WakeUps) == pools[0].sem + Times(events, n, Posts)
    ensures Size(pools[n]) == Size(pools[0])
  {
    if n > 0 {
      NothingFromNowhere(pools, events, n - 1);
      EventCounts(pools[n - 1], pools[n], events[n - 1]);
    }
  }

  /**
   Events that a worker took and that neither a task nor a way out of the semaphore has paid for: negative where
   a task has paid for events to come.
   */
  ghost function Unpaid(w: Worker): int {
    match w.pc
    case Top => 0
    case Look => 1
    case Sleep => 2
    case Run(_) => -2
    case InBarrier(_, _) => -1
    case Stopped => 1
  }

  ghost function AllUnpaid(ws: seq<Worker>): int {
    if ws == [] then 0 else AllUnpaid(ws[..|ws| - 1]) + Unpaid(ws[|ws| - 1])
  }

  lemma {:induction false} UnpaidSet(ws: seq<Worker>, w: nat, x: Worker)
    requires w < |ws|
    ensures AllUnpaid(ws[w := x]) == AllUnpaid(ws) - Unpaid(ws[w]) + Unpaid(x)
  {
    var n := |ws| - 1;
    if w == n {
      assert ws[w := x][..n] == ws[..n];
    } else {
      assert ws[w := x][..n] == ws[..n][w := x];
      UnpaidSet(ws[..n], w, x);
    }
  }

  lemma {:induction false} UnpaidBound(ws: seq<Worker>)
    ensures AllUnpaid(ws) <= 2 * |ws|
  {
    if ws != [] {
      UnpaidBound(ws[..|ws| - 1]);
    }
  }

  lemma {:induction false} NothingUnpaid(ws: seq<Worker>)
    requires forall w :: 0 <= w < |ws| ==> ws[w].pc.Top?
    ensures AllUnpaid(ws) == 0
  {
    if ws != [] {
      NothingUnpaid(ws[..|ws| - 1]);
    }
  }

  lemma EventIsPaid(p: Pool, p': Pool, e: Event)
    requires Step(p, p', e)
    ensures (if WorkerOf(e) >= 0 then 1 else 0) + AllUnpaid(p.workers) <= AllUnpaid(p'.workers)
      + 4 * (p'.popped - p.popped) + if Is(e, WakeUps) || Is(e, Interrupts) then 3 else 0
  {
    var w := WorkerOf(e);
    if w >= 0 {
      UnpaidSet(p.workers, w, p'.workers[w]);
    }
  }

  lemma {:induction false} EventsArePaid(pools: seq<Pool>, events: seq<Event>, n: nat)
    requires PoolTheorems.Run(pools, events) && n <= |events|
    ensures WorkerEvents(events[..n]) <= 4 * pools[n].popped + AllUnpaid(pools[n].workers)
      + 3 * (Times(events, n, WakeUps) + Times(events, n, Interrupts))
  {
    if n == 0 {
      NothingUnpaid(pools[0].workers);
    } else {
      EventsArePaid(pools, events, n - 1);
      EventIsPaid(pools[n - 1], pools[n], events[n - 1]);
      assert events[..n][..n - 1] == events[..n - 1];
    }
  }

  /**
   No worker spins: in every run the events of all workers together are at most four for each task taken off the
   queue, three for each time the semaphore was left, and two for each worker.
   */
  lemma NoSpinning(pools: seq<Pool>, events: seq<Event>, n: nat)
    requires PoolTheorems.Run(pools, events) && n <= |events|
    ensures WorkerEvents(events[..n]) <= 4 * pools[n].popped
      + 3 * (Times(events, n, WakeUps) + Times(events, n, Interrupts)) + 2 * Size(pools[n])
  {
    EventsArePaid(pools, events, n);
    UnpaidBound(pools[n].workers);
  }

  /**
   A queued task is started: the k-th task is no longer queued once the workers have taken more events than all units
   ever posted, the interrupts, the pool's size and the tasks before it account for. Before stop() it has been taken.
   */
  lemma TaskStarts(pools: seq<Pool>, events: seq<Event>, n: nat, k: nat)
    requires PoolTheorems.Run(pools, events) && n <= |events| && k < |pools[n].tasks|
    requires WorkerEvents(events[..n]) > 4 * k
      + 3 * (pools[0].sem + Times(events, n, Posts) + Times(events, n, Interrupts)) + 2 * Size(pools[n])
    ensures Taken(pools, events, n, k) + Dropped(pools, events, n, k) == 1
    ensures pools[n].stopper.NotStopping? ==> Taken(pools, events, n, k) == 1
  {
    NoSpinning(pools, events, n);
    NothingFromNowhere(pools, events, n);
    RunKeeps(pools, events, n);
    ExactlyOnce(pools, events, n, k);
    assert FateKnown(pools[n].workers, pools[n].fate, pools[n].popped, k);
  }

  // ----- nothing gets stuck

  /** What callers do of their own accord, and what a signal does. */
  ghost predicate FromOutside(e: Event) {
    e.ExecutePush? || e.BeginWait? || e.BeginStop? || e.Interrupt?
  }

  ghost predicate Quiet(p: Pool) {
    forall e: Event :: !FromOutside(e) ==> !Enabled(p, e)
  }

  lemma QuietWorker(p: Pool, w: nat)
    requires Inv(p) && Quiet(p) && w < Size(p)
    ensures Waits(p, p.workers[w])
  {
    assert HandKnown(p.workers, p.fate, w) && RoundKnown(p, w);
    assert !FromOutside(TestStop(w)) && !FromOutside(PopTask(w)) && !FromOutside(WakeUp(w));
    assert !FromOutside(FinishUser(w)) && !FromOutside(ArriveWorker(w)) && !FromOutside(LeaveWorker(w));
  }

  lemma QuietCallers(p: Pool)
    requires Inv(p) && Quiet(p)
    ensures p.pushing == 0 && (p.waiter.NotWaiting? || p.waiter == Blocked(p.gen))
  {
    assert !FromOutside(ExecutePost) && !FromOutside(WaiterPush) && !FromOutside(WaiterPost);
    assert !FromOutside(ArriveWaiter) && !FromOutside(ReturnFromWait);
  }

  /** Without a round under way no worker is inside the barrier. */
  lemma NobodyInside(p: Pool, w: nat)
    requires Inv(p) && p.waiter.NotWaiting? && w < Size(p) && p.workers[w].pc.InBarrier?
    ensures p.workers[w].pc.gen < p.gen
  {
    assert HandKnown(p.workers, p.fate, w) && RoundKnown(p, w);
    assert p.workers[w].pc.held !in CurrentGates(p);
  }

  lemma AllAsleep(p: Pool, w: nat)
    requires Inv(p) && w < Size(p) && Waits(p, p.workers[w]) && p.waiter.NotWaiting? && p.stopper.NotStopping?
    ensures p.workers[w].pc.Sleep? && p.sem == 0 && !p.workers[w].woken
  {
    assert WorkerPlain(p.workers[w], p.stopAll);
    if p.workers[w].pc.InBarrier? {
      NobodyInside(p, w);
    }
  }

  /** All workers asleep without a unit of the semaphore: all tasks are finished. */
  lemma AsleepMeansDone(p: Pool, k: nat)
    requires Inv(p) && p.pushing == 0 && p.waiter.NotWaiting? && p.stopper.NotStopping? && k < |p.tasks|
    requires Size(p) > 0 && forall w :: 0 <= w < Size(p) ==> p.workers[w].pc.Sleep? && p.sem == 0 && !p.workers[w].woken
    ensures p.popped == |p.tasks| && p.fate[k] == Done
  {
    CountBounds(p.workers, Woken);
    assert p.workers[0].pc.Sleep?;
    assert FateKnown(p.workers, p.fate, p.popped, k);
  }

  /**
   Nothing gets stuck: when, before stop(), no worker can move except by a signal, no post is due and no caller of
   wait() can go on, then wait() has returned, and if there are workers every task ever queued is finished.
   */
  lemma QuietMeansDone(pools: seq<Pool>, events: seq<Event>, n: nat)
    requires PoolTheorems.Run(pools, events) && n < |pools| && Quiet(pools[n]) && pools[n].stopper.NotStopping?
    ensures pools[n].waiter.NotWaiting? && pools[n].pushing == 0
    ensures Size(pools[n]) > 0 ==> forall k :: 0 <= k < |pools[n].tasks| ==> FateOf(pools[n], k) == Done
  {
    var p := pools[n];
    RunKeeps(pools, events, n);
    QuietCallers(p);
    forall w | 0 <= w < Size(p)
      ensures Waits(p, p.workers[w])
    {
      QuietWorker(p, w);
    }
    if p.waiter.Blocked? {
      NoDeadlock(pools, events, n);
    }
    if Size(p) > 0 {
      forall w | 0 <= w < Size(p)
        ensures p.workers[w].pc.Sleep? && p.sem == 0 && !p.workers[w].woken
      {
        AllAsleep(p, w);
      }
      forall k | 0 <= k < |p.tasks|
        ensures FateOf(p, k) == Done
      {
        AsleepMeansDone(p, k);
      }
    }
  }

  // ----- stop() clears the queue

  lemma ClearsOn(p: Pool, p': Pool, e: Event, k: nat)
    requires Step(p, p', e) && !p.stopper.NotStopping? && k < |p.tasks| && (p.stopper.Clearing? || k < p.popped)
    ensures !p'.stopper.NotStopping? && k < |p'.tasks| && (p'.stopper.Clearing? || k < p'.popped)
  {
  }

  lemma {:induction false} ClearsUntil(pools: seq<Pool>, events: seq<Event>, call: nat, n: nat, k: nat)
    requires PoolTheorems.Run(pools, events) && call < n <= |events|
    requires events[call] == BeginStop && k < |pools[call].tasks|
    ensures k < |pools[n].tasks| && !pools[n].stopper.NotStopping?
    ensures !pools[n].stopper.Clearing? ==> k < pools[n].popped
  {
    assert Step(pools[n - 1], pools[n], events[n - 1]);
    if n > call + 1 {
      ClearsUntil(pools, events, call, n - 1, k);
      ClearsOn(pools[n - 1], pools[n], events[n - 1], k);
    }
  }

  /** A task that was queued when stop() began has been taken or deleted when stop() is through with the queue. */
  lemma StopClears(pools: seq<Pool>, events: seq<Event>, call: nat, n: nat, k: nat)
    requires PoolTheorems.Run(pools, events) && call < n <= |events|
    requires events[call] == BeginStop && k < |pools[call].tasks| && !pools[n].stopper.Clearing?
    ensures Taken(pools, events, n, k) + Dropped(pools, events, n, k) == 1
  {
    ClearsUntil(pools, events, call, n, k);
    RunKeeps(pools, events, n);
    ExactlyOnce(pools, events, n, k);
    assert FateKnown(pools[n].workers, pools[n].fate, pools[n].popped, k);
  }
}
