/** Solo termination: a thread that runs alone finishes within an explicit number of steps. */
module QueueProgress {
  import opened QueueMachine
  import opened QueueInvariant
  import opened QueueSteps

  // ----- solo runs

  /** The deterministic step leads from p to q. */
  ghost predicate GoesTo(t: Tid, p: Pair, q: Pair) {
    Enabled(p.m, p.th, Go) && q == Apply(p.m, t, p.th, Go)
  }

  ghost predicate Hop(t: Tid, ps: seq<Pair>, i: int)
    requires 0 <= i < |ps| - 1
  {
    GoesTo(t, ps[i], ps[i + 1])
  }

  ghost predicate Path(t: Tid, ps: seq<Pair>) {
    forall i {:trigger Hop(t, ps, i)} :: 0 <= i < |ps| - 1 ==> Hop(t, ps, i)
  }

  ghost predicate PathFromTo(t: Tid, ps: seq<Pair>, p: Pair, q: Pair, n: nat) {
    Path(t, ps) && |ps| == n + 1 && ps[0] == p && ps[n] == q
  }

  /** While all other threads stand still, thread t gets from p to q in exactly n steps. */
  ghost predicate Alone(t: Tid, p: Pair, q: Pair, n: nat) {
    exists ps: seq<Pair> :: PathFromTo(t, ps, p, q, n)
  }

  lemma OneStep(t: Tid, p: Pair, q: Pair)
    requires GoesTo(t, p, q)
    ensures Alone(t, p, q, 1)
  {
    var ps := [p, q];
    forall i | 0 <= i < |ps| - 1
      ensures Hop(t, ps, i)
    {
    }
    assert PathFromTo(t, ps, p, q, 1);
  }

  lemma Then(t: Tid, p: Pair, q: Pair, r: Pair, a: nat, b: nat)
    requires Alone(t, p, q, a) && Alone(t, q, r, b)
    ensures Alone(t, p, r, a + b)
  {
    var ps: seq<Pair> :| PathFromTo(t, ps, p, q, a);
    var qs: seq<Pair> :| PathFromTo(t, qs, q, r, b);
    var all := ps + qs[1..];
    forall i | 0 <= i < |all| - 1
      ensures Hop(t, all, i)
    {
      if i < a {
        assert Hop(t, ps, i);
      } else {
        assert Hop(t, qs, i - a);
        assert all[i] == qs[i - a];
      }
    }
    assert PathFromTo(t, all, p, r, a + b);
  }

  lemma AndThen(t: Tid, p: Pair, q: Pair, r: Pair, n: nat)
    requires Alone(t, p, q, n) && GoesTo(t, q, r)
    ensures Alone(t, p, r, n + 1)
  {
    OneStep(t, q, r);
    Then(t, p, q, r, n, 1);
  }

  // ----- the loop around tail

  /** How many links tail is behind the last node. */
  ghost function Lag(m: Memory): int {
    |m.hist| - 1 - m.tail.ver
  }

  /** Five reads alone: t is the tail pair, s its link word, and both checks pass. */
  lemma TailReads(m: Memory, t: Tid, th: Thread)
    requires th.pc.TReadPtr?
    ensures Alone(t, Pair(m, th),
      Pair(m, th.(pc := TAct, tp := m.tail.ptr, tv := m.tail.ver, nx := LinkOf(m, m.tail.ptr))), 5)
  {
    var p := Pair(m, th);
    var p1 := Pair(m, th.(pc := TReadVer, tp := m.tail.ptr));
    var p2 := Pair(m, p1.th.(pc := TReadNext, tv := m.tail.ver));
    var p3 := Pair(m, p2.th.(pc := TCheckPtr, nx := LinkOf(m, m.tail.ptr)));
    var p4 := Pair(m, p3.th.(pc := TCheckVer));
    var p5 := Pair(m, p4.th.(pc := TAct));
    OneStep(t, p, p1);
    AndThen(t, p, p1, p2, 1);
    AndThen(t, p, p2, p3, 2);
    AndThen(t, p, p3, p4, 3);
    AndThen(t, p, p4, p5, 4);
  }

  /** The swing will succeed and leave no link behind. */
  ghost predicate SwingsToLast(p: Pair) {
    && p.m.hist != [] && p.th.op.PushOp? && TailIs(p.m, p.th) && p.th.tv + |p.th.op.batch| == |p.m.hist| - 1
    && p.th.last == p.m.hist[|p.m.hist| - 1]
  }

  lemma LinkSwings(m: Memory, t: Tid, th: Thread)
    requires th.op.PushOp? && TailIs(m, th) && th.hand != [] && |th.hand| == |th.op.batch| && th.tv == |m.hist| - 1
    ensures SwingsToLast(LinkChain(m, t, th))
  {
  }

  /** One iteration alone advances a lagging tail by one link, or links the chain. */
  lemma PushRound(m: Memory, t: Tid, th: Thread) returns (r: Pair)
    requires Good(m, t, th) && th.pc.TReadPtr? && th.op.PushOp?
    ensures Alone(t, Pair(m, th), r, 6) && r.th.op == th.op
    ensures Lag(m) > 0 ==> Good(r.m, t, r.th) && r.th.pc.TReadPtr? && Lag(r.m) == Lag(m) - 1
    ensures Lag(m) == 0 ==> r.th.pc.SwingTail? && r.th.res == Pushed && SwingsToLast(r)
  {
    TailReads(m, t, th);
    var th' := th.(pc := TAct, tp := m.tail.ptr, tv := m.tail.ver, nx := LinkOf(m, m.tail.ptr));
    LinkOfLive(m, m.tail.ver);
    if Lag(m) > 0 {
      r := Pair(CasTail(m, m.tail, Wrap(th'.nx, m.tail.ver + 1)), th'.(pc := TReadPtr));
      MoveTail(m, t, Wrap(th'.nx, m.tail.ver + 1));
      HandSurvives(m, r.m, t, th, r.th);
    } else {
      assert ChainLocal(m, th) && th.hand != [];
      r := LinkChain(m, t, th');
      LinkSwings(m, t, th');
    }
    TailActCases(m, t, th');
    AndThen(t, Pair(m, th), Pair(m, th'), r, 5);
  }

  /**
   push and push_all: from the top of the loop a thread running alone is done after
   lag + 1 iterations of six steps and the final tail swing, which leaves the tail at the last node.
   */
  lemma {:induction false} PushFinishesAlone(m: Memory, t: Tid, th: Thread, lag: nat) returns (q: Pair)
    requires Good(m, t, th) && th.pc.TReadPtr? && th.op.PushOp? && lag == Lag(m)
    ensures Alone(t, Pair(m, th), q, 6 * (lag + 1) + 1)
    ensures q.th.pc.Done? && q.th.res == Pushed && TailAtEnd(q.m)
    decreases lag
  {
    var r := PushRound(m, t, th);
    if lag > 0 {
      q := PushFinishesAlone(r.m, t, r.th, lag - 1);
    } else {
      q := SwingAlone(r.m, t, r.th);
    }
    Then(t, Pair(m, th), r, q, 6, 6 * lag + 1);
  }

  ghost predicate TailAtEnd(m: Memory) {
    m.hist != [] && m.tail == Wrap(m.hist[|m.hist| - 1], |m.hist| - 1)
  }

  lemma SwingAlone(m: Memory, t: Tid, th: Thread) returns (q: Pair)
    requires th.pc.SwingTail? && th.res == Pushed && SwingsToLast(Pair(m, th))
    ensures Alone(t, Pair(m, th), q, 1) && q.th.pc.Done? && q.th.res == Pushed && TailAtEnd(q.m)
  {
    q := TailStep(m, t, th);
    OneStep(t, Pair(m, th), q);
  }

  // ----- the loop around head

  /** The thread after the seven reads and checks of one iteration. */
  ghost function AfterReads(m: Memory, th: Thread): Thread {
    th.(pc := HAct, hp := m.head.ptr, hv := m.head.ver, tp := m.tail.ptr, tv := m.tail.ver,
        nx := LinkOf(m, m.head.ptr), sawEmpty := th.sawEmpty || m.head.ver + 1 == |m.hist|)
  }

  lemma HeadReads(m: Memory, t: Tid, th: Thread)
    requires th.pc.HReadPtr?
    ensures Alone(t, Pair(m, th), Pair(m, AfterReads(m, th)), 7)
  {
    var p := Pair(m, th);
    var p1 := Pair(m, th.(pc := HReadVer, hp := m.head.ptr));
    var p2 := Pair(m, p1.th.(pc := HReadTailPtr, hv := m.head.ver));
    var p3 := Pair(m, p2.th.(pc := HReadTailVer, tp := m.tail.ptr));
    var p4 := Pair(m, p3.th.(pc := HReadNext, tv := m.tail.ver));
    OneStep(t, p, p1);
    AndThen(t, p, p1, p2, 1);
    AndThen(t, p, p2, p3, 2);
    AndThen(t, p, p3, p4, 3);
    HeadChecks(m, t, p4.th);
    Then(t, p, p4, Pair(m, AfterReads(m, th)), 4, 3);
  }

  lemma HeadChecks(m: Memory, t: Tid, th: Thread)
    requires th.pc.HReadNext? && HeadIs(m, th)
    ensures Alone(t, Pair(m, th),
      Pair(m, th.(pc := HAct, nx := LinkOf(m, th.hp), sawEmpty := th.sawEmpty || m.head.ver + 1 == |m.hist|)), 3)
  {
    var p := Pair(m, th);
    var p1 := Pair(m, th.(pc := HCheckPtr, nx := LinkOf(m, th.hp),
                          sawEmpty := th.sawEmpty || m.head.ver + 1 == |m.hist|));
    var p2 := Pair(m, p1.th.(pc := HCheckVer));
    var p3 := Pair(m, p2.th.(pc := HAct));
    OneStep(t, p, p1);
    AndThen(t, p, p1, p2, 1);
    AndThen(t, p, p2, p3, 2);
  }

  ghost predicate Finished(q: Pair) {
    q.th.pc.Done? || q.th.pc.Recycle?
  }

  /** Copying alone: the remaining bytes, one step to leave the copy, one compare-and-swap that succeeds. */
  lemma {:induction false} CopyFinishes(m: Memory, t: Tid, th: Thread) returns (q: Pair)
    requires th.pc.HCopy? && HeadIs(m, th) && |th.buf| <= m.width
    ensures Alone(t, Pair(m, th), q, m.width - |th.buf| + 2) && Finished(q)
    decreases m.width - |th.buf|
  {
    var r := HeadStep(m, t, th);
    OneStep(t, Pair(m, th), r);
    if |th.buf| < m.width {
      q := CopyFinishes(m, t, r.th);
    } else {
      q := HeadStep(m, t, r.th);
      OneStep(t, r, q);
    }
    Then(t, Pair(m, th), r, q, 1, m.width - |th.buf| + 1);
  }

  /** The decision of an iteration whose reads found the tail ahead of the head. */
  lemma ActAhead(m: Memory, t: Tid, th: Thread) returns (r: Pair)
    requires th.pc.HAct? && HeadIs(m, th) && th.hp != th.tp && IsNodePtr(th.nx)
    ensures GoesTo(t, Pair(m, th), r) && (Finished(r) || r == Pair(m, th.(pc := HCopy, buf := [])))
  {
    r := HeadStep(m, t, th);
  }

  /** The decision of an iteration whose reads found head and tail equal. */
  lemma ActLevel(m: Memory, t: Tid, th: Thread) returns (r: Pair)
    requires th.pc.HAct? && th.hp == th.tp && m.tail == Wrap(th.tp, th.tv)
    ensures GoesTo(t, Pair(m, th), r)
    ensures if IsNodePtr(th.nx) then r == Pair(m.(tail := Wrap(th.nx, th.tv + 1)), th.(pc := HReadPtr))
      else r == Pair(m, th.(pc := Done, res := Empty))
  {
    r := HeadStep(m, t, th);
  }

  /** One iteration alone that finds the tail ahead of the head finishes the operation. */
  lemma PopRound(m: Memory, t: Tid, th: Thread) returns (q: Pair, n: nat)
    requires Shared(m) && th.pc.HReadPtr? && m.head.ver < m.tail.ver
    ensures n <= m.width + 10 && Alone(t, Pair(m, th), q, n) && Finished(q)
  {
    LinkOfLive(m, m.head.ver);
    assert m.head.ptr != m.tail.ptr by {
      if m.head.ptr == m.tail.ptr {
        DistinctLive(m, m.head.ver, m.tail.ver);
      }
    }
    HeadReads(m, t, th);
    var p := Pair(m, AfterReads(m, th));
    q := ActAhead(m, t, p.th);
    n := 8;
    AndThen(t, Pair(m, th), p, q, 7);
    if !Finished(q) {
      var c := q;
      q := CopyFinishes(m, t, c.th);
      Then(t, Pair(m, th), c, q, 8, m.width + 2);
      n := m.width + 10;
    }
  }

  /** pop and peek: from the top of the loop a thread running alone is done within two iterations. */
  lemma PopFinishesAlone(m: Memory, t: Tid, th: Thread) returns (q: Pair, n: nat)
    requires Shared(m) && th.pc.HReadPtr?
    ensures n <= m.width + 18 && Alone(t, Pair(m, th), q, n) && Finished(q)
  {
    if m.head.ver < m.tail.ver {
      q, n := PopRound(m, t, th);
    } else {
      LinkOfLive(m, m.tail.ver);
      HeadReads(m, t, th);
      var p := Pair(m, AfterReads(m, th));
      q := ActLevel(m, t, p.th);
      n := 8;
      AndThen(t, Pair(m, th), p, q, 7);
      if !Finished(q) {
        var r := q;
        MoveTail(m, t, Wrap(p.th.nx, m.tail.ver + 1));
        q, n := PopRound(r.m, t, r.th);
        Then(t, Pair(m, th), r, q, 8, n);
        n := n + 8;
      }
    }
  }
}
