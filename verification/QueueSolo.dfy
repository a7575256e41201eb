/**
 Solo termination from everywhere: in every reachable state, at whatever step of its operation a thread is, it
 finishes within an explicit number of its own steps once the others stand still.
 */
module QueueSolo {
  import opened QueueMachine
  import opened QueueInvariant
  import opened QueueSteps
  import opened QueueTheorems
  import opened QueueProgress

  // ----- finishing, whatever nodes create_node gets

  /** A step of the running operation itself. */
  ghost predicate Runs(p: Pair, c: Choice) {
    (c.Go? || c.Use?) && Enabled(p.m, p.th, c)
  }

  ghost predicate CanRun(p: Pair) {
    exists c :: Runs(p, c)
  }

  ghost predicate Hops(t: Tid, p: Pair, q: Pair) {
    !Finished(p) && exists c :: Runs(p, c) && q == Apply(p.m, t, p.th, c)
  }

  ghost predicate HopAt(t: Tid, ps: seq<Pair>, i: int) {
    0 <= i < |ps| - 1 && Hops(t, ps[i], ps[i + 1])
  }

  /** The thread runs from p on, while the others stand still, and has not finished before the end of ps. */
  ghost predicate Trail(t: Tid, ps: seq<Pair>, p: Pair) {
    ps != [] && ps[0] == p && forall i {:trigger HopAt(t, ps, i)} :: 0 <= i < |ps| - 1 ==> HopAt(t, ps, i)
  }

  ghost predicate Ends(ps: seq<Pair>, n: nat)
    requires ps != []
  {
    |ps| - 1 <= n && (Finished(ps[|ps| - 1]) || CanRun(ps[|ps| - 1]))
  }

  /** Whatever it runs into, the thread is finished after at most n steps, and not stuck before. */
  ghost predicate Within(t: Tid, p: Pair, n: nat) {
    forall ps {:trigger Trail(t, ps, p)} :: Trail(t, ps, p) ==> Ends(ps, n)
  }

  lemma WithinMore(t: Tid, p: Pair, n: nat, k: nat)
    requires Within(t, p, n) && n <= k
    ensures Within(t, p, k)
  {
  }

  lemma FinishedWithin(t: Tid, p: Pair)
    requires Finished(p)
    ensures Within(t, p, 0)
  {
    forall ps | Trail(t, ps, p)
      ensures |ps| == 1
    {
      assert !HopAt(t, ps, 0);
    }
  }

  lemma TrailRest(t: Tid, ps: seq<Pair>, p: Pair)
    requires Trail(t, ps, p) && |ps| > 1
    ensures Trail(t, ps[1..], ps[1]) && Hops(t, p, ps[1])
  {
    assert HopAt(t, ps, 0);
    forall i | 0 <= i < |ps[1..]| - 1
      ensures HopAt(t, ps[1..], i)
    {
      assert HopAt(t, ps, i + 1);
    }
  }

  /** If all ways on are within n steps of the end, this is within n + 1. */
  lemma AllWithin(t: Tid, p: Pair, n: nat)
    requires CanRun(p) && forall q {:trigger Hops(t, p, q)} :: Hops(t, p, q) ==> Within(t, q, n)
    ensures Within(t, p, n + 1)
  {
    forall ps | Trail(t, ps, p)
      ensures Ends(ps, n + 1)
    {
      if |ps| > 1 {
        TrailRest(t, ps, p);
        assert Ends(ps[1..], n);
      }
    }
  }

  lemma OnlyGo(t: Tid, p: Pair, q: Pair)
    requires Enabled(p.m, p.th, Go) && Hops(t, p, q)
    ensures q == Apply(p.m, t, p.th, Go)
  {
  }

  lemma StepWithin(t: Tid, p: Pair, q: Pair, n: nat)
    requires GoesTo(t, p, q) && Within(t, q, n)
    ensures Within(t, p, n + 1)
  {
    assert Runs(p, Go);
    forall r | Hops(t, p, r)
      ensures Within(t, r, n)
    {
      OnlyGo(t, p, r);
    }
    AllWithin(t, p, n);
  }

  lemma {:induction false} PathWithin(t: Tid, ps: seq<Pair>, i: nat, k: nat)
    requires Path(t, ps) && i < |ps| && Within(t, ps[|ps| - 1], k)
    ensures Within(t, ps[i], |ps| - 1 - i + k)
    decreases |ps| - i
  {
    if i < |ps| - 1 {
      PathWithin(t, ps, i + 1, k);
      assert Hop(t, ps, i);
      StepWithin(t, ps[i], ps[i + 1], |ps| - 2 - i + k);
    }
  }

  lemma AloneWithin(t: Tid, p: Pair, q: Pair, n: nat, k: nat)
    requires Alone(t, p, q, n) && Within(t, q, k)
    ensures Within(t, p, n + k)
  {
    var ps: seq<Pair> :| PathFromTo(t, ps, p, q, n);
    PathWithin(t, ps, 0, k);
  }

  // ----- the loop around tail

  /** One iteration of size alone advances a lagging tail, or leaves the loop. */
  lemma SizeRound(m: Memory, t: Tid, th: Thread) returns (r: Pair)
    requires Good(m, t, th) && th.pc.TReadPtr? && th.op.SizeOp?
    ensures Alone(t, Pair(m, th), r, 6) && r.th.op == th.op
    ensures Lag(m) > 0 ==> Good(r.m, t, r.th) && r.th.pc.TReadPtr? && Lag(r.m) == Lag(m) - 1
    ensures Lag(m) == 0 ==> r.th.pc.SizeHead?
  {
    TailReads(m, t, th);
    var th' := th.(pc := TAct, tp := m.tail.ptr, tv := m.tail.ver, nx := LinkOf(m, m.tail.ptr));
    LinkOfLive(m, m.tail.ver);
    if Lag(m) > 0 {
      r := Pair(CasTail(m, m.tail, Wrap(th'.nx, m.tail.ver + 1)), th'.(pc := TReadPtr));
      MoveTail(m, t, Wrap(th'.nx, m.tail.ver + 1));
      HandSurvives(m, r.m, t, th, r.th);
    } else {
      r := Pair(m, th'.(pc := SizeHead));
    }
    TailActCases(m, t, th');
    AndThen(t, Pair(m, th), Pair(m, th'), r, 5);
  }

  /** Behind the loop: the two version reads of size, or the swing of the tail. */
  lemma EndsSoon(m: Memory, t: Tid, th: Thread)
    requires th.pc.SizeHead? || th.pc.SizeTail? || th.pc.SwingTail?
    ensures Within(t, Pair(m, th), 2)
  {
    var p, r := Pair(m, th), TailStep(m, t, th);
    if th.pc.SizeHead? {
      var q := TailStep(r.m, t, r.th);
      FinishedWithin(t, q);
      StepWithin(t, r, q, 0);
      StepWithin(t, p, r, 1);
    } else {
      FinishedWithin(t, r);
      StepWithin(t, p, r, 0);
      WithinMore(t, p, 1, 2);
    }
  }

  /** One iteration alone, of push, push_all or size. */
  lemma TailRound(m: Memory, t: Tid, th: Thread) returns (r: Pair)
    requires Good(m, t, th) && th.pc.TReadPtr?
    ensures Alone(t, Pair(m, th), r, 6)
    ensures Lag(m) > 0 ==> Good(r.m, t, r.th) && r.th.pc.TReadPtr? && Lag(r.m) == Lag(m) - 1
    ensures Lag(m) == 0 ==> r.th.pc.SizeHead? || r.th.pc.SwingTail?
  {
    if th.op.PushOp? {
      r := PushRound(m, t, th);
    } else {
      r := SizeRound(m, t, th);
    }
  }

  lemma TailTopLast(m: Memory, t: Tid, th: Thread)
    requires Good(m, t, th) && th.pc.TReadPtr? && Lag(m) == 0
    ensures Within(t, Pair(m, th), 8)
  {
    var r := TailRound(m, t, th);
    EndsSoon(r.m, t, r.th);
    AloneWithin(t, Pair(m, th), r, 6, 2);
  }

  /** From the top of the loop: lag + 1 iterations of six steps, and at most two steps behind the loop. */
  lemma {:induction false} TailTop(m: Memory, t: Tid, th: Thread, lag: nat)
    requires Good(m, t, th) && th.pc.TReadPtr? && lag == Lag(m)
    ensures Within(t, Pair(m, th), 6 * lag + 8)
    decreases lag
  {
    if lag == 0 {
      TailTopLast(m, t, th);
    } else {
      var r := TailRound(m, t, th);
      TailTop(r.m, t, r.th, lag - 1);
      AloneWithin(t, Pair(m, th), r, 6, 6 * (lag - 1) + 8);
    }
  }

  /** Steps to the end of the present iteration, which may rest on stale reads. */
  ghost function TailLeft(pc: Pc): nat {
    match pc
    case TReadVer => 5
    case TReadNext => 4
    case TCheckPtr => 3
    case TCheckVer => 2
    case TAct => 1
    case _ => 0
  }

  lemma TailStepLeads(m: Memory, t: Tid, th: Thread)
    requires TailPc(th.pc) && TailLeft(th.pc) > 0
    ensures var r := TailStep(m, t, th);
      && GoesTo(t, Pair(m, th), r) && TailPc(r.th.pc) && TailLeft(r.th.pc) < TailLeft(th.pc)
      && (r.th.pc.SwingTail? || |r.m.hist| == |m.hist|)
  {
  }

  lemma TailStepGood(m: Memory, t: Tid, th: Thread)
    requires Good(m, t, th) && TailPc(th.pc)
    ensures var r := TailStep(m, t, th); Good(r.m, t, r.th) && m.tail.ver <= r.m.tail.ver
  {
    TailKeeps(m, t, th);
    assert Rely(m, TailStep(m, t, th).m, t + 1);
  }

  lemma LagIsNat(m: Memory, t: Tid, th: Thread)
    requires Good(m, t, th)
    ensures Lag(m) >= 0
  {
  }

  lemma {:induction false} TailWithin(m: Memory, t: Tid, th: Thread, lag: nat)
    requires Good(m, t, th) && TailPc(th.pc) && Lag(m) <= lag
    ensures Within(t, Pair(m, th), TailLeft(th.pc) + 6 * lag + 8)
    decreases TailLeft(th.pc)
  {
    var p, left := Pair(m, th), TailLeft(th.pc);
    if th.pc.TReadPtr? {
      LagIsNat(m, t, th);
      TailTop(m, t, th, Lag(m));
      WithinMore(t, p, 6 * Lag(m) + 8, 6 * lag + 8);
    } else if left == 0 {
      EndsSoon(m, t, th);
      WithinMore(t, p, 2, 6 * lag + 8);
    } else {
      var r := TailStep(m, t, th);
      TailStepLeads(m, t, th);
      TailStepGood(m, t, th);
      if r.th.pc.SwingTail? {
        EndsSoon(r.m, t, r.th);
        WithinMore(t, r, 2, left - 1 + 6 * lag + 8);
      } else {
        TailWithin(r.m, t, r.th, lag);
        WithinMore(t, r, TailLeft(r.th.pc) + 6 * lag + 8, left - 1 + 6 * lag + 8);
      }
      StepWithin(t, p, r, left - 1 + 6 * lag + 8);
    }
  }

  // ----- the loop around head

  ghost function HeadLeft(width: nat, th: Thread): nat {
    match th.pc
    case HReadVer => width + 9
    case HReadTailPtr => width + 8
    case HReadTailVer => width + 7
    case HReadNext => width + 6
    case HCheckPtr => width + 5
    case HCheckVer => width + 4
    case HAct => width + 3
    case HCopy => if |th.buf| <= width then width - |th.buf| + 2 else 2
    case HCas => 1
    case _ => 0
  }

  lemma HeadStepLeads(m: Memory, t: Tid, th: Thread)
    requires HeadPc(th.pc) && !th.pc.HReadPtr?
    ensures var r := HeadStep(m, t, th);
      && GoesTo(t, Pair(m, th), r) && r.m.width == m.width
      && (Finished(r) || (HeadPc(r.th.pc) && HeadLeft(m.width, r.th) < HeadLeft(m.width, th)))
  {
  }

  lemma HeadStepGood(m: Memory, t: Tid, th: Thread)
    requires Good(m, t, th) && HeadPc(th.pc)
    ensures var r := HeadStep(m, t, th); Good(r.m, t, r.th)
  {
    HeadKeeps(m, t, th);
  }

  lemma HeadTop(m: Memory, t: Tid, th: Thread)
    requires Good(m, t, th) && th.pc.HReadPtr?
    ensures Within(t, Pair(m, th), m.width + 18)
  {
    var q, n := PopFinishesAlone(m, t, th);
    FinishedWithin(t, q);
    AloneWithin(t, Pair(m, th), q, n, 0);
    WithinMore(t, Pair(m, th), n, m.width + 18);
  }

  lemma {:induction false} HeadWithin(m: Memory, t: Tid, th: Thread)
    requires Good(m, t, th) && HeadPc(th.pc)
    ensures Within(t, Pair(m, th), HeadLeft(m.width, th) + m.width + 18)
    decreases HeadLeft(m.width, th)
  {
    if th.pc.HReadPtr? {
      HeadTop(m, t, th);
    } else {
      var r := HeadStep(m, t, th);
      HeadStepLeads(m, t, th);
      var bound := HeadLeft(m.width, th) - 1 + m.width + 18;
      if Finished(r) {
        FinishedWithin(t, r);
        WithinMore(t, r, 0, bound);
      } else {
        HeadStepGood(m, t, th);
        HeadWithin(r.m, t, r.th);
        WithinMore(t, r, HeadLeft(m.width, r.th) + m.width + 18, bound);
      }
      StepWithin(t, Pair(m, th), r, bound);
    }
  }

  // ----- building the chain

  ghost function Evens(n: nat): (s: set<nat>)
    ensures |s| == n && forall k :: k in s <==> 0 < k <= 2 * n && k % 2 == 0
  {
    if n == 0 then {} else Evens(n - 1) + {2 * n}
  }

  lemma NotAll(s: set<nat>, taken: set<nat>)
    requires |s| > |taken|
    ensures !(s <= taken)
  {
    assert s <= taken ==> taken == s + (taken - s);
  }

  /** The allocator never runs out of addresses. */
  lemma FreshNode(taken: set<Word>) returns (p: Word)
    ensures IsNodePtr(p) && p != 0 && p !in taken
  {
    var s := Evens(|taken| + 1);
    NotAll(s, taken);
    p :| p in s && p !in taken;
  }

  ghost function BuildLeft(th: Thread): nat {
    match th.pc
    case Create => if th.op.PushOp? && |th.hand| <= |th.op.batch| then 2 * (|th.op.batch| - |th.hand|) + 2 else 0
    case Chain => if th.op.PushOp? && |th.hand| <= |th.op.batch| then 2 * (|th.op.batch| - |th.hand|) + 3 else 0
    case TakeTag => 2
    case WriteTag => 1
    case _ => 0
  }

  lemma BuildStepLeads(m: Memory, t: Tid, th: Thread)
    requires BuildPc(th.pc) && th.hand != [] && th.op.PushOp? && |th.hand| <= |th.op.batch|
    ensures var r := BuildStep(m, t, th);
      && GoesTo(t, Pair(m, th), r) && r.m.hist == m.hist && r.m.tail == m.tail
      && r.th.op == th.op && r.th.hand == th.hand
      && if th.pc.WriteTag? then r.th.pc.TReadPtr? else PushPc(r.th.pc) && BuildLeft(r.th) == BuildLeft(th) - 1
  {
  }

  lemma BuildStepGood(m: Memory, t: Tid, th: Thread)
    requires Good(m, t, th) && BuildPc(th.pc) && th.hand != []
    ensures var r := BuildStep(m, t, th); Good(r.m, t, r.th)
  {
    BuildKeeps(m, t, th);
  }

  lemma CreateLeads(m: Memory, t: Tid, th: Thread, p: Word)
    requires Enabled(m, th, Use(p))
    ensures var r := CreateNode(m, t, th, p);
      && r.m.hist == m.hist && r.m.tail == m.tail && r.th.pc.Chain? && r.th.hand != []
      && r.th.op == th.op && |r.th.hand| <= |th.op.batch| && BuildLeft(r.th) == BuildLeft(th) - 1
  {
  }

  lemma CreateGood(m: Memory, t: Tid, th: Thread, p: Word)
    requires Good(m, t, th) && Enabled(m, th, Use(p))
    ensures var r := CreateNode(m, t, th, p); Good(r.m, t, r.th)
  {
    KeepCreate(m, t, th, p);
  }

  lemma CreateHops(m: Memory, t: Tid, th: Thread, q: Pair) returns (p: Word)
    requires th.pc.Create? && Hops(t, Pair(m, th), q)
    ensures Enabled(m, th, Use(p)) && q == CreateNode(m, t, th, p)
  {
    var c :| Runs(Pair(m, th), c) && q == Apply(m, t, th, c);
    p := c.p;
  }

  lemma CreateCanRun(m: Memory, t: Tid, th: Thread)
    requires th.pc.Create? && th.op.PushOp? && |th.hand| < |th.op.batch|
    ensures CanRun(Pair(m, th))
  {
    var p := FreshNode(m.own.Keys);
    assert Runs(Pair(m, th), Use(p));
  }

  ghost predicate Building(th: Thread) {
    PushPc(th.pc) && th.op.PushOp? && |th.hand| <= |th.op.batch|
    && (BuildPc(th.pc) ==> th.hand != []) && (th.pc.Create? ==> |th.hand| < |th.op.batch|)
  }

  lemma BuildingHolds(m: Memory, t: Tid, th: Thread)
    requires Good(m, t, th) && PushPc(th.pc)
    ensures Building(th)
  {
    assert ChainLocal(m, th) && HoldsChain(th);
  }

  lemma {:induction false} CreateWithin(m: Memory, t: Tid, th: Thread, lag: nat)
    requires Good(m, t, th) && th.pc.Create? && Building(th) && Lag(m) == lag
    ensures Within(t, Pair(m, th), BuildLeft(th) + 6 * lag + 8)
    decreases BuildLeft(th), 0
  {
    var bound := BuildLeft(th) - 1 + 6 * lag + 8;
    CreateCanRun(m, t, th);
    forall q | Hops(t, Pair(m, th), q)
      ensures Within(t, q, bound)
    {
      var p := CreateHops(m, t, th, q);
      CreateLeads(m, t, th, p);
      CreateGood(m, t, th, p);
      BuildWithin(q.m, t, q.th, lag);
    }
    AllWithin(t, Pair(m, th), bound);
  }

  lemma {:induction false} BuildWithin(m: Memory, t: Tid, th: Thread, lag: nat)
    requires Good(m, t, th) && PushPc(th.pc) && Lag(m) == lag
    ensures Within(t, Pair(m, th), BuildLeft(th) + 6 * lag + 8)
    decreases BuildLeft(th), 1
  {
    BuildingHolds(m, t, th);
    var bound := BuildLeft(th) - 1 + 6 * lag + 8;
    if th.pc.Create? {
      CreateWithin(m, t, th, lag);
    } else {
      var r := BuildStep(m, t, th);
      BuildStepLeads(m, t, th);
      BuildStepGood(m, t, th);
      if th.pc.WriteTag? {
        TailTop(r.m, t, r.th, lag);
      } else {
        BuildWithin(r.m, t, r.th, lag);
      }
      StepWithin(t, Pair(m, th), r, bound);
    }
  }

  // ----- all operations

  /** An explicit bound, from the program counter, the lag of the tail, the batch and the item width. */
  ghost function StepsLeft(m: Memory, th: Thread): int {
    if HeadPc(th.pc) then HeadLeft(m.width, th) + m.width + 18 else TailLeft(th.pc) + BuildLeft(th) + 6 * Lag(m) + 8
  }

  lemma SoloFinishes(m: Memory, t: Tid, th: Thread)
    requires Good(m, t, th) && (HeadPc(th.pc) || TailPc(th.pc) || PushPc(th.pc))
    ensures StepsLeft(m, th) >= 0 && Within(t, Pair(m, th), StepsLeft(m, th))
  {
    LagIsNat(m, t, th);
    if HeadPc(th.pc) {
      HeadWithin(m, t, th);
    } else if TailPc(th.pc) {
      TailWithin(m, t, th, Lag(m));
    } else {
      BuildWithin(m, t, th, Lag(m));
    }
  }

  /**
   In every reachable state, a thread inside push, push_all, pop, peek or size that then runs alone finishes the
   operation, up to the return of a popped node, within the bound. At most the iteration it is in is wasted.
   */
  lemma FinishesFromAnywhere(states: seq<State>, moves: seq<Move>, i: nat, t: Tid)
    requires Run(states, moves) && i < |states| && t in states[i].threads
    requires var pc := states[i].threads[t].pc; HeadPc(pc) || TailPc(pc) || PushPc(pc)
    ensures StepsLeft(states[i].mem, states[i].threads[t]) >= 0
    ensures Within(t, Pair(states[i].mem, states[i].threads[t]), StepsLeft(states[i].mem, states[i].threads[t]))
  {
    RunKeeps(states, moves, i);
    SoloFinishes(states[i].mem, t, states[i].threads[t]);
  }

  /** The bound in numbers, wherever in the operation the thread is. */
  lemma StepsLeftBounded(m: Memory, th: Thread)
    requires th.op.PushOp? ==> |th.hand| <= |th.op.batch|
    ensures HeadPc(th.pc) ==> StepsLeft(m, th) <= 2 * m.width + 27
    ensures TailPc(th.pc) ==> StepsLeft(m, th) <= 6 * Lag(m) + 13
    ensures PushPc(th.pc) && th.op.PushOp? ==> StepsLeft(m, th) <= 2 * |th.op.batch| + 6 * Lag(m) + 11
  {
  }
}
