/** A whole operation of a thread that runs alone: it ends, and with the result of a sequential queue. */
module QueueAlone {
  import opened QueueMachine
  import opened QueueSteps
  import opened QueueTheorems
  import opened QueueProgress
  import opened QueueSolo

  /** What a queue that nobody else uses makes of an operation. */
  ghost predicate Sequential(op: Op, before: seq<Item>, after: seq<Item>, res: Result) {
    match op
    case PushOp(batch) => after == before + batch && res == Pushed
    case PopOp(copy) =>
      if before == [] then after == [] && res == Empty
      else after == before[1..] && res == if copy then Popped(before[0]) else Dropped
    case PeekOp => after == before && res == if before == [] then Empty else Peeked(before[0])
    case SizeOp => after == before && res == Size(|before|)
  }

  /** What the caller's view may be while op runs alone on a queue that was f. */
  ghost predicate OnTheWay(op: Op, f: Fifo, f': Fifo, call: Call)
    requires Sound(f) && Sound(f')
  {
    match call
    case NoCall => false
    case Busy(o, sawEmpty, base, snap) =>
      && o == op && f' == f && base == |f.log|
      && (sawEmpty ==> Contents(f) == []) && (snap.Some? ==> snap.value == f.deq)
    case Ready(o, res) => o == op && Sequential(op, Contents(f), Contents(f'), res)
  }

  lemma StillOnTheWay(op: Op, f: Fifo, f1: Fifo, f2: Fifo, a: Call, b: Call, c: Choice)
    requires Sound(f) && Sound(f1) && Sound(f2) && OnTheWay(op, f, f1, a) && !c.Start? && !c.Return?
    requires CallStep(f1, f2, a, b, c)
    ensures OnTheWay(op, f, f2, b)
  {
  }

  ghost predicate Fine(op: Op, f: Fifo, t: Tid, p: Pair)
    requires Sound(f)
  {
    Good(p.m, t, p.th) && Sound(FifoOf(p.m)) && OnTheWay(op, f, FifoOf(p.m), CallOf(p.th))
  }

  /** One step of the operation itself. */
  lemma HopKeeps(op: Op, f: Fifo, t: Tid, p: Pair, q: Pair)
    requires Sound(f) && Fine(op, f, t, p) && Hops(t, p, q)
    ensures Fine(op, f, t, q)
  {
    var c :| Runs(p, c) && q == Apply(p.m, t, p.th, c);
    ApplyKeeps(p.m, t, p.th, c);
    ApplyRefines(p.m, t, p.th, c);
    StillOnTheWay(op, f, FifoOf(p.m), FifoOf(q.m), CallOf(p.th), CallOf(q.th), c);
  }

  lemma {:induction false} TrailCarries(fine: Pair -> bool, t: Tid, ps: seq<Pair>, p: Pair, n: nat)
    requires Trail(t, ps, p) && n < |ps| && fine(p)
    requires forall a, b :: fine(a) && Hops(t, a, b) ==> fine(b)
    ensures fine(ps[n])
  {
    if n > 0 {
      TrailCarries(fine, t, ps, p, n - 1);
      assert HopAt(t, ps, n - 1);
    }
  }

  lemma TrailKeeps(op: Op, f: Fifo, t: Tid, ps: seq<Pair>, p: Pair, n: nat)
    requires Trail(t, ps, p) && n < |ps| && Sound(f) && Fine(op, f, t, p)
    ensures Fine(op, f, t, ps[n])
  {
    forall a, b | Fine(op, f, t, a) && Hops(t, a, b)
      ensures Fine(op, f, t, b)
    {
      HopKeeps(op, f, t, a, b);
    }
    TrailCarries(q => Fine(op, f, t, q), t, ps, p, n);
  }

  /** How long an operation takes at most, with the tail lag links behind. */
  ghost function Longest(m: Memory, op: Op): int {
    match op
    case PushOp(batch) => 2 * |batch| + 6 * Lag(m) + 10
    case SizeOp => 6 * Lag(m) + 8
    case _ => m.width + 18
  }

  lemma StartWithin(m: Memory, t: Tid, th: Thread, op: Op)
    requires Good(m, t, th) && Enabled(m, th, Start(op))
    ensures Longest(m, op) >= 0 && Within(t, Apply(m, t, th, Start(op)), Longest(m, op))
  {
    var p := Apply(m, t, th, Start(op));
    ApplyKeeps(m, t, th, Start(op));
    SoloFinishes(p.m, t, p.th);
  }

  lemma StartIsFine(m: Memory, t: Tid, th: Thread, op: Op)
    requires Good(m, t, th) && Enabled(m, th, Start(op))
    ensures Sound(FifoOf(m)) && Fine(op, FifoOf(m), t, Apply(m, t, th, Start(op)))
  {
    ApplyKeeps(m, t, th, Start(op));
    ApplyRefines(m, t, th, Start(op));
  }

  lemma EndIsSequential(op: Op, f: Fifo, t: Tid, p: Pair)
    requires Sound(f) && Fine(op, f, t, p) && Finished(p)
    ensures Sequential(op, Contents(f), Contents(FifoOf(p.m)), p.th.res)
  {
    assert CallOf(p.th) == Ready(p.th.op, p.th.res);
  }

  /**
   A thread that has nothing to do starts any operation it likes. If it then runs alone, whatever nodes it gets, it
   ends within the stated steps, is never stuck before, and has changed the queue and got its result as the
   operation on a sequential queue does.
   */
  lemma CallAlone(states: seq<State>, moves: seq<Move>, i: nat, t: Tid, op: Op, ps: seq<Pair>)
    requires Run(states, moves) && i < |states| && t in states[i].threads
    requires states[i].threads[t].pc.Idle? && OpOk(states[i].mem.width, op)
    ensures Enabled(states[i].mem, states[i].threads[t], Start(op))
    ensures Trail(t, ps, Apply(states[i].mem, t, states[i].threads[t], Start(op))) ==>
      var q, f := ps[|ps| - 1], FifoOf(states[i].mem);
      && Sound(f) && Sound(FifoOf(q.m)) && |ps| - 1 <= Longest(states[i].mem, op)
      && (!Finished(q) ==> CanRun(q))
      && (Finished(q) ==> Sequential(op, Contents(f), Contents(FifoOf(q.m)), q.th.res))
  {
    var m, th := states[i].mem, states[i].threads[t];
    RunKeeps(states, moves, i);
    var p := Apply(m, t, th, Start(op));
    if Trail(t, ps, p) {
      AloneEnds(m, t, th, op, ps);
    }
  }

  lemma AloneEnds(m: Memory, t: Tid, th: Thread, op: Op, ps: seq<Pair>)
    requires Good(m, t, th) && Enabled(m, th, Start(op)) && Trail(t, ps, Apply(m, t, th, Start(op)))
    ensures var q, f := ps[|ps| - 1], FifoOf(m);
      && Sound(f) && Sound(FifoOf(q.m)) && |ps| - 1 <= Longest(m, op)
      && (!Finished(q) ==> CanRun(q))
      && (Finished(q) ==> Sequential(op, Contents(f), Contents(FifoOf(q.m)), q.th.res))
  {
    var p, q := Apply(m, t, th, Start(op)), ps[|ps| - 1];
    StartWithin(m, t, th, op);
    assert Ends(ps, Longest(m, op));
    StartIsFine(m, t, th, op);
    TrailKeeps(op, FifoOf(m), t, ps, p, |ps| - 1);
    if Finished(q) {
      EndIsSequential(op, FifoOf(m), t, q);
    }
  }
}
