/**
 Lock-freedom: a thread goes round its loop once more only because some operation, or help with one, went through in
 the meantime.
 */
module QueueLockFree {
  import opened QueueMachine
  import opened QueueInvariant
  import opened QueueSteps
  import opened QueueTheorems
  import opened QueueProgress

  // ----- what moves, and what stays otherwise

  /** A pop took effect, the tail was advanced, or a push took effect. */
  ghost predicate Grown(m: Memory, m': Memory) {
    m.head.ver < m'.head.ver || m.tail.ver < m'.tail.ver || |m.hist| < |m'.hist|
  }

  /** What a thread that goes round the loop reads of the memory. */
  ghost predicate Same(m: Memory, m': Memory) {
    && m'.head == m.head && m'.tail == m.tail && m'.hist == m.hist
    && LinkOf(m', m.tail.ptr) == LinkOf(m, m.tail.ptr)
  }

  /** Only the step that links a chain makes a tag a linked one. */
  lemma TagsAreLinkedOnce(m: Memory, t: Tid, th: Thread, c: Choice, w: Word)
    requires Enabled(m, th, c) && Apply(m, t, th, c).m.hist == m.hist && LinkedTag(Apply(m, t, th, c).m, w)
    ensures LinkedTag(m, w)
  {
  }

  lemma SameInnerLink(m: Memory, m': Memory)
    requires Shared(m) && Shared(m') && m'.hist == m.hist && m'.tail == m.tail && m.tail.ver + 1 < |m.hist|
    ensures LinkOf(m', m.tail.ptr) == LinkOf(m, m.tail.ptr)
  {
    LinkOfLive(m, m.tail.ver);
    LinkOfLive(m', m.tail.ver);
  }

  lemma LastLink(m: Memory)
    requires Shared(m) && m.tail.ver + 1 == |m.hist|
    ensures LinkedTag(m, LinkOf(m, m.tail.ptr)) && m.tail.ptr in m.next
  {
    LinkOfLive(m, m.tail.ver);
  }

  lemma SameLastLink(s: State, s': State, t: Tid, c: Choice, n: Word, w: Word)
    requires Inv(s) && Step(s, s', t, c) && s'.mem.hist == s.mem.hist
    requires n in s'.mem.next && s'.mem.next[n] == w && LinkedTag(s'.mem, w)
    ensures LinkOf(s.mem, n) == w
  {
    TagsAreLinkedOnce(s.mem, t, s.threads[t], c, w);
    LinkedTagIsNotRewritten(s, s', t, c, n, w);
  }

  lemma SameLink(s: State, s': State, t: Tid, c: Choice)
    requires Inv(s) && Inv(s') && Step(s, s', t, c) && s'.mem.hist == s.mem.hist && s'.mem.tail == s.mem.tail
    ensures LinkOf(s'.mem, s.mem.tail.ptr) == LinkOf(s.mem, s.mem.tail.ptr)
  {
    var n := s.mem.tail.ptr;
    if s.mem.tail.ver + 1 < |s.mem.hist| {
      SameInnerLink(s.mem, s'.mem);
    } else {
      LastLink(s'.mem);
      SameLastLink(s, s', t, c, n, LinkOf(s'.mem, n));
    }
  }

  lemma SameOrGrown(s: State, s': State, t: Tid, c: Choice)
    requires Inv(s) && Step(s, s', t, c)
    ensures Same(s.mem, s'.mem) || Grown(s.mem, s'.mem)
    ensures s.mem.head.ver <= s'.mem.head.ver && s.mem.tail.ver <= s'.mem.tail.ver && |s.mem.hist| <= |s'.mem.hist|
  {
    StepGrows(s, s', t, c);
    if !Grown(s.mem, s'.mem) {
      StepKeeps(s, s', t, c);
      SameLink(s, s', t, c);
    }
  }

  lemma MomentGrows(states: seq<State>, moves: seq<Move>, k: nat)
    requires Run(states, moves) && k < |moves|
    ensures var m, m' := states[k].mem, states[k + 1].mem;
      && (Same(m, m') || Grown(m, m'))
      && m.head.ver <= m'.head.ver && m.tail.ver <= m'.tail.ver && |m.hist| <= |m'.hist|
  {
    StepAt(states, moves, k);
    SameOrGrown(states[k], states[k + 1], moves[k].t, moves[k].c);
  }

  // ----- one turn of the loop

  ghost predicate AtTop(th: Thread) {
    th.pc.TReadPtr? || th.pc.HReadPtr?
  }

  ghost predicate InLoop(th: Thread) {
    HeadPc(th.pc) || (TailPc(th.pc) && !th.pc.SwingTail? && !th.pc.SizeHead? && !th.pc.SizeTail?)
  }

  /** What the thread has read since the top of the loop is what memory m holds. */
  ghost predicate Current(m: Memory, th: Thread) {
    var h, r := HeadRank(th.pc), TailRank(th.pc);
    && (h >= 1 ==> th.hp == m.head.ptr) && (r >= 1 ==> th.tp == m.tail.ptr)
    && (h >= 2 ==> th.hv == m.head.ver) && (h >= 3 ==> th.tp == m.tail.ptr) && (h >= 4 ==> th.tv == m.tail.ver)
    && (r >= 2 ==> th.tv == m.tail.ver) && (r >= 3 ==> th.nx == LinkOf(m, m.tail.ptr))
  }

  /** With current reads no check fails and no compare-and-swap fails. */
  lemma HeadTurn(m: Memory, t: Tid, th: Thread)
    requires Shape(m.width, th) && HeadLocal(m, th) && HeadPc(th.pc) && Current(m, th)
    requires InLoop(HeadStep(m, t, th).th)
    ensures var r := HeadStep(m, t, th); Grown(m, r.m) || (Current(m, r.th) && !AtTop(r.th))
  {
  }

  lemma TailTurn(m: Memory, t: Tid, th: Thread)
    requires Shape(m.width, th) && TailPc(th.pc) && InLoop(th) && Current(m, th) && (th.op.PushOp? ==> th.hand != [])
    requires InLoop(TailStep(m, t, th).th)
    ensures var r := TailStep(m, t, th); Grown(m, r.m) || (Current(m, r.th) && !AtTop(r.th))
  {
  }

  lemma Turn(m: Memory, t: Tid, th: Thread, c: Choice)
    requires Good(m, t, th) && InLoop(th) && Current(m, th) && Enabled(m, th, c)
    requires InLoop(Apply(m, t, th, c).th)
    ensures var r := Apply(m, t, th, c); Grown(m, r.m) || (Current(m, r.th) && !AtTop(r.th))
  {
    if HeadPc(th.pc) {
      HeadTurn(m, t, th);
    } else {
      TailTurn(m, t, th);
    }
  }

  // ----- runs

  ghost predicate LoopAt(states: seq<State>, t: Tid, k: nat) {
    k < |states| && t in states[k].threads && InLoop(states[k].threads[t])
  }

  /** The thread does not leave its loop from moment i to moment j. */
  ghost predicate StaysInLoop(states: seq<State>, t: Tid, i: nat, j: nat) {
    forall k {:trigger LoopAt(states, t, k)} :: i <= k <= j ==> LoopAt(states, t, k)
  }

  ghost predicate Moved(moves: seq<Move>, t: Tid, i: nat, j: nat) {
    exists k :: i <= k < j <= |moves| && moves[k].t == t
  }

  /** Since the top of the loop at moment i: something has grown, or all that was read is current. */
  ghost predicate SinceTop(states: seq<State>, moves: seq<Move>, t: Tid, i: nat, j: nat)
    requires i < |states| && LoopAt(states, t, j)
  {
    || Grown(states[i].mem, states[j].mem)
    || (&& Same(states[i].mem, states[j].mem) && Current(states[j].mem, states[j].threads[t])
        && (AtTop(states[j].threads[t]) ==> !Moved(moves, t, i, j)))
  }

  lemma MovedOneMore(moves: seq<Move>, t: Tid, i: nat, j: nat)
    requires i < j <= |moves| && moves[j - 1].t != t && !Moved(moves, t, i, j - 1)
    ensures !Moved(moves, t, i, j)
  {
  }

  lemma SameCurrent(m: Memory, m': Memory, th: Thread)
    requires Same(m, m')
    ensures Current(m, th) <==> Current(m', th)
  {
  }

  lemma OwnMove(states: seq<State>, moves: seq<Move>, t: Tid, k: nat)
    requires Run(states, moves) && k < |moves| && moves[k].t == t && LoopAt(states, t, k) && LoopAt(states, t, k + 1)
    requires Current(states[k].mem, states[k].threads[t])
    ensures var th := states[k + 1].threads[t];
      Grown(states[k].mem, states[k + 1].mem) || (Current(states[k].mem, th) && !AtTop(th))
  {
    StepAt(states, moves, k);
    assert Local(states[k].mem, t, states[k].threads[t]);
    Turn(states[k].mem, t, states[k].threads[t], moves[k].c);
  }

  lemma OtherMove(states: seq<State>, moves: seq<Move>, t: Tid, k: nat)
    requires Run(states, moves) && k < |moves| && moves[k].t != t && t in states[k].threads
    ensures t in states[k + 1].threads && states[k + 1].threads[t] == states[k].threads[t]
  {
  }

  lemma NextMoment(states: seq<State>, moves: seq<Move>, t: Tid, i: nat, j: nat)
    requires Run(states, moves) && i < j < |states| && LoopAt(states, t, j - 1) && LoopAt(states, t, j)
    requires SinceTop(states, moves, t, i, j - 1)
    ensures SinceTop(states, moves, t, i, j)
  {
    MomentGrows(states, moves, j - 1);
    if !Grown(states[i].mem, states[j - 1].mem) {
      if moves[j - 1].t == t {
        OwnMove(states, moves, t, j - 1);
        SameCurrent(states[i].mem, states[j - 1].mem, states[j].threads[t]);
      } else {
        OtherMove(states, moves, t, j - 1);
        if AtTop(states[j].threads[t]) {
          MovedOneMore(moves, t, i, j);
        }
      }
    }
  }

  lemma {:induction false} LoopSince(states: seq<State>, moves: seq<Move>, t: Tid, i: nat, j: nat)
    requires Run(states, moves) && i <= j < |states| && StaysInLoop(states, t, i, j)
    requires LoopAt(states, t, i) && AtTop(states[i].threads[t])
    ensures LoopAt(states, t, j) && SinceTop(states, moves, t, i, j)
    decreases j
  {
    assert LoopAt(states, t, j);
    if i < j {
      LoopSince(states, moves, t, i, j - 1);
      NextMoment(states, moves, t, i, j);
    }
  }

  /**
   In every run, between two visits of a thread to the top of its loop a pop or a push took effect or the tail was
   advanced, whichever thread did it.
   */
  lemma RetryNeedsProgress(states: seq<State>, moves: seq<Move>, t: Tid, i: nat, j: nat)
    requires Run(states, moves) && i <= j < |states| && StaysInLoop(states, t, i, j)
    requires LoopAt(states, t, i) && AtTop(states[i].threads[t])
    requires LoopAt(states, t, j) && AtTop(states[j].threads[t]) && Moved(moves, t, i, j)
    ensures Grown(states[i].mem, states[j].mem)
  {
    LoopSince(states, moves, t, i, j);
  }

  // ----- counting retries

  ghost function Work(m: Memory): nat {
    m.head.ver + m.tail.ver + |m.hist|
  }

  lemma {:induction false} WorkGrows(states: seq<State>, moves: seq<Move>, i: nat, j: nat)
    requires Run(states, moves) && i <= j < |states|
    ensures states[i].mem.head.ver <= states[j].mem.head.ver && states[i].mem.tail.ver <= states[j].mem.tail.ver
    ensures |states[i].mem.hist| <= |states[j].mem.hist|
    decreases j
  {
    if i < j {
      WorkGrows(states, moves, i, j - 1);
      MomentGrows(states, moves, j - 1);
    }
  }

  ghost predicate VisitAt(states: seq<State>, moves: seq<Move>, t: Tid, vs: seq<nat>, n: int) {
    && 0 <= n < |vs| && LoopAt(states, t, vs[n]) && AtTop(states[vs[n]].threads[t])
    && (n > 0 ==> vs[n - 1] < vs[n] && StaysInLoop(states, t, vs[n - 1], vs[n]) && Moved(moves, t, vs[n - 1], vs[n]))
  }

  /** The moments of vs are visits of the thread to the top of its loop, in one and the same operation. */
  ghost predicate Visits(states: seq<State>, moves: seq<Move>, t: Tid, vs: seq<nat>) {
    && vs != []
    && forall n {:trigger VisitAt(states, moves, t, vs, n)} :: 0 <= n < |vs| ==> VisitAt(states, moves, t, vs, n)
  }

  lemma {:induction false} RetriesNeedWork(states: seq<State>, moves: seq<Move>, t: Tid, vs: seq<nat>, n: nat)
    requires Run(states, moves) && Visits(states, moves, t, vs) && n < |vs|
    ensures vs[0] <= vs[n] < |states| && n <= Work(states[vs[n]].mem) - Work(states[vs[0]].mem)
  {
    assert VisitAt(states, moves, t, vs, n);
    if n > 0 {
      assert VisitAt(states, moves, t, vs, n - 1);
      RetriesNeedWork(states, moves, t, vs, n - 1);
      RetryNeedsProgress(states, moves, t, vs[n - 1], vs[n]);
      WorkGrows(states, moves, vs[n - 1], vs[n]);
    }
  }

  lemma WorkIsPaid(m: Memory, m': Memory)
    requires Shared(m) && Shared(m')
    ensures var f, f' := FifoOf(m), FifoOf(m');
      Work(m') - Work(m) <= (f'.deq - f.deq) + 2 * (|f'.log| - |f.log|) + Lag(m)
  {
    FifoOfIsSound(m);
    FifoOfIsSound(m');
    assert |m.hist| == |FifoOf(m).log| + 1 && |m'.hist| == |FifoOf(m').log| + 1;
  }

  /**
   Lock-freedom in numbers: the retries of one operation are at most the items dequeued meanwhile, twice the items
   enqueued meanwhile, and the lag of the tail at the first visit.
   */
  lemma RetriesArePaidFor(states: seq<State>, moves: seq<Move>, t: Tid, vs: seq<nat>)
    requires Run(states, moves) && Visits(states, moves, t, vs)
    ensures vs[0] <= vs[|vs| - 1] < |states|
    ensures var m, m' := states[vs[0]].mem, states[vs[|vs| - 1]].mem;
      var f, f' := FifoOf(m), FifoOf(m');
      |vs| - 1 <= (f'.deq - f.deq) + 2 * (|f'.log| - |f.log|) + Lag(m)
  {
    RetriesNeedWork(states, moves, t, vs, |vs| - 1);
    RunKeeps(states, moves, vs[0]);
    RunKeeps(states, moves, vs[|vs| - 1]);
    WorkIsPaid(states[vs[0]].mem, states[vs[|vs| - 1]].mem);
  }
}
