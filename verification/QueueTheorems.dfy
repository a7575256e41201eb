/** What the queue promises its callers, over every step and every run. */
module QueueTheorems {
  import opened Common
  import opened QueueMachine
  import opened QueueInvariant
  import opened QueueSteps

  // ----- runs

  datatype Move = Move(t: Tid, c: Choice)

  /** A finite run: states[0] is initial and every move leads to the next state. */
  ghost predicate Run(states: seq<State>, moves: seq<Move>) {
    && |states| == |moves| + 1
    && Init(states[0])
    && forall i {:trigger moves[i]} :: 0 <= i < |moves| ==> Step(states[i], states[i + 1], moves[i].t, moves[i].c)
  }

  lemma {:induction false} RunKeeps(states: seq<State>, moves: seq<Move>, i: nat)
    requires Run(states, moves) && i < |states|
    ensures Inv(states[i])
  {
    if i == 0 {
      InitHolds(states[0]);
    } else {
      RunKeeps(states, moves, i - 1);
      StepKeeps(states[i - 1], states[i], moves[i - 1].t, moves[i - 1].c);
    }
  }

  /** What any step does to the shared memory, whoever takes it. */
  lemma StepGrows(s: State, s': State, t: Tid, c: Choice)
    requires Inv(s) && Step(s, s', t, c)
    ensures WrapGrows(s.mem.head, s'.mem.head) && WrapGrows(s.mem.tail, s'.mem.tail)
    ensures s.mem.hist <= s'.mem.hist && s.mem.vals <= s'.mem.vals
    ensures s'.mem.width == s.mem.width
    ensures forall w :: LinkedTag(s.mem, w) ==> LinkedTag(s'.mem, w)
  {
    ApplyKeeps(s.mem, t, s.threads[t], c);
    assert Rely(s.mem, s'.mem, t + 1);
  }

  lemma StepAt(states: seq<State>, moves: seq<Move>, i: nat)
    requires Run(states, moves) && i < |moves|
    ensures Inv(states[i]) && Step(states[i], states[i + 1], moves[i].t, moves[i].c)
  {
    RunKeeps(states, moves, i);
  }

  lemma GrowsAt(states: seq<State>, moves: seq<Move>, i: nat)
    requires Run(states, moves) && i < |moves|
    ensures WrapGrows(states[i].mem.head, states[i + 1].mem.head)
    ensures WrapGrows(states[i].mem.tail, states[i + 1].mem.tail)
    ensures forall w :: LinkedTag(states[i].mem, w) ==> LinkedTag(states[i + 1].mem, w)
  {
    StepAt(states, moves, i);
    StepGrows(states[i], states[i + 1], moves[i].t, moves[i].c);
  }

  // ----- versions: a passed check means the pair held all along

  lemma {:induction false} VersionsGrow(states: seq<State>, moves: seq<Move>, i: nat, j: nat)
    requires Run(states, moves) && i <= j < |states|
    ensures WrapGrows(states[i].mem.head, states[j].mem.head)
    ensures WrapGrows(states[i].mem.tail, states[j].mem.tail)
    decreases j
  {
    if i < j {
      VersionsGrow(states, moves, i, j - 1);
      GrowsAt(states, moves, j - 1);
    }
  }

  /** Between two moments with the same head version, or tail version, the whole pair never moved. */
  lemma EqualVersionsPinThePair(states: seq<State>, moves: seq<Move>, i: nat, k: nat, j: nat)
    requires Run(states, moves) && i <= k <= j < |states|
    ensures states[i].mem.head.ver == states[j].mem.head.ver ==> states[k].mem.head == states[i].mem.head
    ensures states[i].mem.tail.ver == states[j].mem.tail.ver ==> states[k].mem.tail == states[i].mem.tail
  {
    VersionsGrow(states, moves, i, k);
    VersionsGrow(states, moves, k, j);
  }

  // ----- tags: a link word that still holds a linked tag held it all along

  /** A step writes only node pointers, null, and, at WriteTag, the thread's own tag. */
  lemma WordsWritten(m: Memory, t: Tid, th: Thread, c: Choice)
    requires Nodes(m) && Hand(m, t, th) && Enabled(m, th, c)
    ensures var m' := Apply(m, t, th, c).m;
      forall n :: n in m'.next ==>
        || (n in m.next && m'.next[n] == m.next[n])
        || IsNodePtr(m'.next[n])
        || (th.pc.WriteTag? && m'.next[n] == th.tag)
  {
    if th.hand != [] {
      assert HandAt(m, t, th, 0) && HandAt(m, t, th, |th.hand| - 1);
    }
  }

  lemma LinkedTagIsNotRewritten(s: State, s': State, t: Tid, c: Choice, n: Word, w: Word)
    requires Inv(s) && Step(s, s', t, c)
    requires LinkedTag(s.mem, w) && n in s'.mem.next && s'.mem.next[n] == w
    ensures n in s.mem.next && s.mem.next[n] == w
  {
    var th := s.threads[t];
    assert TagLocal(s.mem, t, th);
    WordsWritten(s.mem, t, th, c);
  }

  lemma {:induction false} LinkedForever(states: seq<State>, moves: seq<Move>, i: nat, j: nat, w: Word)
    requires Run(states, moves) && i <= j < |states| && LinkedTag(states[i].mem, w)
    ensures LinkedTag(states[j].mem, w)
    decreases j
  {
    if i < j {
      LinkedForever(states, moves, i, j - 1, w);
      GrowsAt(states, moves, j - 1);
    }
  }

  lemma TagWasThere(states: seq<State>, moves: seq<Move>, i: nat, n: Word, w: Word)
    requires Run(states, moves) && i < |moves| && LinkedTag(states[i].mem, w)
    requires n in states[i + 1].mem.next && states[i + 1].mem.next[n] == w
    ensures n in states[i].mem.next && states[i].mem.next[n] == w
  {
    StepAt(states, moves, i);
    LinkedTagIsNotRewritten(states[i], states[i + 1], moves[i].t, moves[i].c, n, w);
  }

  lemma {:induction false} TagHeldAllAlong(
    states: seq<State>, moves: seq<Move>, i: nat, k: nat, j: nat, n: Word, w: Word)
    requires Run(states, moves) && i <= k <= j < |states| && LinkedTag(states[i].mem, w)
    requires n in states[j].mem.next && states[j].mem.next[n] == w
    ensures n in states[k].mem.next && states[k].mem.next[n] == w
    decreases j
  {
    if k < j {
      LinkedForever(states, moves, i, j - 1, w);
      TagWasThere(states, moves, j - 1, n, w);
      TagHeldAllAlong(states, moves, i, k, j - 1, n, w);
    }
  }

  ghost predicate IsLast(m: Memory, n: Word) {
    m.hist != [] && n == LastNode(m)
  }

  /**
   Read a linked tag from n's link word at moment i and find it there again at moment j, as the
   link compare-and-swap does: at every moment between, n was the last node of the queue, although
   other threads may have popped, recycled and pushed any number of nodes.
   */
  lemma EqualTagsPinTheLastNode(
    states: seq<State>, moves: seq<Move>, i: nat, k: nat, j: nat, n: Word, w: Word)
    requires Run(states, moves) && i <= k <= j < |states| && LinkedTag(states[i].mem, w)
    requires n in states[j].mem.next && states[j].mem.next[n] == w
    ensures IsLast(states[k].mem, n)
  {
    TagHeldAllAlong(states, moves, i, k, j, n, w);
    LinkedForever(states, moves, i, k, w);
    RunKeeps(states, moves, k);
  }

  // ----- the abstract queue

  /**
   A caller's view of an operation: not started, running, or finished with a result. A running one knows whether it
   saw the queue empty, how many items had ever been enqueued when it began, and how many it found dequeued.
   */
  datatype Call =
    | NoCall
    | Busy(op: Op, sawEmpty: bool, base: int, snap: Option<nat>)
    | Ready(op: Op, res: Result)

  /** All items ever enqueued, and how many of them were dequeued. */
  datatype Fifo = Fifo(log: seq<Item>, deq: nat)

  ghost predicate Sound(f: Fifo) {
    f.deq <= |f.log|
  }

  /** The items now in the queue, oldest first. */
  ghost function Contents(f: Fifo): seq<Item>
    requires Sound(f)
  {
    f.log[f.deq..]
  }

  /** The atomic effect and the result of an operation. */
  ghost predicate Effect(f: Fifo, f': Fifo, call: Call, res: Result)
    requires Sound(f) && Sound(f') && call.Busy?
  {
    match call.op
    case PushOp(batch) => f'.deq == f.deq && Contents(f') == Contents(f) + batch && res == Pushed
    case PopOp(copy) =>
      if res == Empty then f' == f && call.sawEmpty
      else
        && f'.deq == f.deq + 1 && Contents(f) != [] && Contents(f') == Contents(f)[1..]
        && res == if copy then Popped(Contents(f)[0]) else Dropped
    case PeekOp =>
      f' == f && if res == Empty then call.sawEmpty else Contents(f) != [] && res == Peeked(Contents(f)[0])
    case SizeOp =>
      f' == f && res.Size? && call.snap.Some? && 0 <= res.n && call.base <= call.snap.value + res.n <= |f.log|
  }

  /**
   One step of the specification, for the thread whose call goes from a to b. A start makes exactly the call that
   was asked for, and a return ends a call that has its result. Between them the call keeps its operation: it notes
   that the queue is empty now, or how many items have left it, or takes effect with its result, or nothing happens.
   */
  ghost predicate CallStep(f: Fifo, f': Fifo, a: Call, b: Call, c: Choice)
    requires Sound(f) && Sound(f')
  {
    match c
    case Start(op) => a.NoCall? && b == Busy(op, false, |f.log|, None) && f' == f
    case Return => a.Ready? && b.NoCall? && f' == f
    case _ =>
      || (a.Busy? && b.Busy? && b.op == a.op && b.base == a.base && f' == f
            && (b.sawEmpty ==> a.sawEmpty || Contents(f) == [])
            && (b.snap == a.snap || b.snap == Some(f.deq)))
      || (a.Busy? && b.Ready? && b.op == a.op && Effect(f, f', a, b.res))
      || (a.Ready? && b == a && f' == f)
  }

  ghost function CallOf(th: Thread): Call {
    if th.pc.Idle? then NoCall
    else if th.res.Pending? then
      Busy(th.op, th.sawEmpty, th.base, if th.pc.SizeTail? then Some(th.snap) else None)
    else Ready(th.op, th.res)
  }

  ghost function FifoOf(m: Memory): Fifo {
    Fifo(if |m.vals| > 0 then m.vals[1..] else [], m.head.ver)
  }

  lemma FifoOfIsSound(m: Memory)
    requires Shared(m)
    ensures Sound(FifoOf(m)) && |m.vals| == |m.hist| > m.head.ver
    ensures Contents(FifoOf(m)) == m.vals[m.head.ver + 1..]
  {
    assert m.vals[1..][m.head.ver..] == m.vals[m.head.ver + 1..];
  }

  // ----- refinement

  ghost predicate Refines(m: Memory, th: Thread, r: Pair, c: Choice) {
    && Sound(FifoOf(m)) && Sound(FifoOf(r.m))
    && CallStep(FifoOf(m), FifoOf(r.m), CallOf(th), CallOf(r.th), c)
  }

  /** Only the two decisive compare-and-swaps touch the queue's contents. */
  lemma OtherStepsKeepContents(m: Memory, t: Tid, th: Thread, c: Choice)
    requires Enabled(m, th, c) && !(c.Go? && (AboutToPop(m, th) || AboutToLink(m, th)))
    requires Shape(m.width, th) && HeadLocal(m, th)
    ensures Apply(m, t, th, c).m.vals == m.vals && Apply(m, t, th, c).m.head == m.head
  {
  }

  lemma PopRefines(m: Memory, t: Tid, th: Thread)
    requires Good(m, t, th) && AboutToPop(m, th)
    ensures Apply(m, t, th, Go) == TakeHead(m, t, th)
    ensures Refines(m, th, TakeHead(m, t, th), Go)
  {
    PopFacts(m, t, th);
    FifoOfIsSound(m);
    var m' := TakeHead(m, t, th).m;
    assert m'.vals[1..][m'.head.ver..] == m.vals[m.head.ver + 1..][1..];
  }

  lemma LinkRefines(m: Memory, t: Tid, th: Thread)
    requires Good(m, t, th) && AboutToLink(m, th)
    ensures Apply(m, t, th, Go) == LinkChain(m, t, th)
    ensures Refines(m, th, LinkChain(m, t, th), Go)
  {
    FifoOfIsSound(m);
    var m' := LinkChain(m, t, th).m;
    assert m'.vals[1..][m.head.ver..] == m.vals[m.head.ver + 1..] + th.op.batch;
  }

  /** The other steps of a head loop, seen from the caller. */
  lemma HeadRefines(m: Memory, t: Tid, th: Thread)
    requires Shared(m) && Shape(m.width, th) && HeadLocal(m, th) && HeadPc(th.pc) && !AboutToPop(m, th)
    requires FifoOf(HeadStep(m, t, th).m) == FifoOf(m)
    ensures Refines(m, th, HeadStep(m, t, th), Go)
  {
    FifoOfIsSound(m);
    if th.pc.HCas? {
      HeadCasRefines(m, t, th);
    } else {
      HeadReadRefines(m, t, th);
    }
  }

  lemma HeadCasRefines(m: Memory, t: Tid, th: Thread)
    requires Shared(m) && Shape(m.width, th) && HeadLocal(m, th) && th.pc.HCas? && !AboutToPop(m, th)
    ensures Refines(m, th, HeadStep(m, t, th), Go)
  {
    FifoOfIsSound(m);
    if HeadIs(m, th) {
      assert th.buf == m.vals[m.head.ver + 1];
    }
  }

  lemma HeadReadRefines(m: Memory, t: Tid, th: Thread)
    requires Positions(m) && Shape(m.width, th) && HeadLocal(m, th) && HeadPc(th.pc) && !th.pc.HCas?
    requires !AboutToPop(m, th) && Sound(FifoOf(m)) && FifoOf(HeadStep(m, t, th).m) == FifoOf(m)
    ensures Refines(m, th, HeadStep(m, t, th), Go)
  {
  }

  lemma TailRefines(m: Memory, t: Tid, th: Thread)
    requires Shared(m) && Shape(m.width, th) && TailLocal(m, th) && SizeLocal(m, th)
    requires TailPc(th.pc) && !AboutToLink(m, th)
    requires th.op.PushOp? && !th.pc.SwingTail? ==> th.hand != []
    requires FifoOf(TailStep(m, t, th).m) == FifoOf(m)
    ensures Refines(m, th, TailStep(m, t, th), Go)
  {
    FifoOfIsSound(m);
    if th.pc.SizeTail? {
      SizeRefines(m, t, th);
    } else {
      TailReadRefines(m, t, th);
    }
  }

  lemma SizeRefines(m: Memory, t: Tid, th: Thread)
    requires Shared(m) && Shape(m.width, th) && TailLocal(m, th) && SizeLocal(m, th) && th.pc.SizeTail?
    ensures Refines(m, th, TailStep(m, t, th), Go)
  {
    FifoOfIsSound(m);
  }

  lemma TailReadRefines(m: Memory, t: Tid, th: Thread)
    requires Positions(m) && Shape(m.width, th) && TailPc(th.pc) && !th.pc.SizeTail? && !AboutToLink(m, th)
    requires th.op.PushOp? && !th.pc.SwingTail? ==> th.hand != []
    requires Sound(FifoOf(m)) && FifoOf(TailStep(m, t, th).m) == FifoOf(m)
    ensures Refines(m, th, TailStep(m, t, th), Go)
  {
  }

  lemma SmallRefines(m: Memory, t: Tid, th: Thread, c: Choice)
    requires Shared(m) && Shape(m.width, th) && Enabled(m, th, c) && (c.Go? ==> BuildPc(th.pc))
    requires FifoOf(Apply(m, t, th, c).m) == FifoOf(m)
    ensures Refines(m, th, Apply(m, t, th, c), c)
  {
    FifoOfIsSound(m);
  }

  lemma GoRefines(m: Memory, t: Tid, th: Thread)
    requires Good(m, t, th) && Enabled(m, th, Go) && !BuildPc(th.pc)
    ensures Refines(m, th, Apply(m, t, th, Go), Go)
  {
    if AboutToPop(m, th) {
      PopRefines(m, t, th);
    } else if AboutToLink(m, th) {
      LinkRefines(m, t, th);
    } else {
      OtherStepsKeepContents(m, t, th, Go);
      if HeadPc(th.pc) {
        HeadRefines(m, t, th);
      } else {
        TailRefines(m, t, th);
      }
    }
  }

  lemma ApplyRefines(m: Memory, t: Tid, th: Thread, c: Choice)
    requires Good(m, t, th) && Enabled(m, th, c)
    ensures Refines(m, th, Apply(m, t, th, c), c)
  {
    if c.Go? && !BuildPc(th.pc) {
      GoRefines(m, t, th);
    } else {
      OtherStepsKeepContents(m, t, th, c);
      SmallRefines(m, t, th, c);
    }
  }

  /**
   The refinement theorem: every step of the machine, in every interleaving, is a step of the
   specification for the thread that takes it, and leaves every other thread's call alone.
   */
  lemma StepRefines(s: State, s': State, t: Tid, c: Choice)
    requires Inv(s) && Step(s, s', t, c)
    ensures Refines(s.mem, s.threads[t], Pair(s'.mem, s'.threads[t]), c)
    ensures forall u :: u in s.threads && u != t ==> u in s'.threads && CallOf(s'.threads[u]) == CallOf(s.threads[u])
  {
    ApplyRefines(s.mem, t, s.threads[t], c);
  }

  // ----- the list in memory

  /** The node k links after the head node, by following link words. */
  ghost function Follow(m: Memory, k: nat): Word {
    if k == 0 then m.head.ptr else LinkOf(m, Follow(m, k - 1))
  }

  lemma {:induction false} FollowIsHistory(m: Memory, k: nat)
    requires Shared(m) && m.head.ver + k < |m.hist|
    ensures Follow(m, k) == m.hist[m.head.ver + k]
  {
    if k > 0 {
      FollowIsHistory(m, k - 1);
      assert LiveAt(m, m.head.ver + k - 1);
    }
  }

  ghost function ItemOf(m: Memory, n: Word): Item {
    if n in m.item then m.item[n] else []
  }

  /**
   Read from memory alone: the list behind the dummy head node carries exactly these items,
   and the link word of its last node is a null tag.
   */
  ghost predicate ListHolds(m: Memory, items: seq<Item>) {
    && !IsNodePtr(LinkOf(m, Follow(m, |items|)))
    && forall k {:trigger ItemOf(m, Follow(m, k + 1))} :: 0 <= k < |items| ==>
      IsNodePtr(LinkOf(m, Follow(m, k))) && ItemOf(m, Follow(m, k + 1)) == items[k]
  }

  lemma ListHoldsContents(m: Memory)
    requires Shared(m)
    ensures Sound(FifoOf(m)) && ListHolds(m, Contents(FifoOf(m)))
  {
    FifoOfIsSound(m);
    var items := Contents(FifoOf(m));
    forall k | 0 <= k < |items|
      ensures IsNodePtr(LinkOf(m, Follow(m, k))) && ItemOf(m, Follow(m, k + 1)) == items[k]
    {
      FollowIsHistory(m, k);
      FollowIsHistory(m, k + 1);
      LinkOfLive(m, m.head.ver + k);
      assert LiveAt(m, m.head.ver + k + 1);
    }
    FollowIsHistory(m, |items|);
    LinkOfLive(m, m.head.ver + |items|);
  }

  /** size never goes below zero, and with a current tail and no pop in between it is the list's length. */
  lemma SizeOfASnapshot(m: Memory, t: Tid, th: Thread, items: seq<Item>)
    requires Good(m, t, th) && th.pc.SizeTail? && items == Contents(FifoOf(m))
    ensures ListHolds(m, items)
    ensures var r := TailStep(m, t, th).th.res;
      && r.Size? && r.n >= 0
      && (th.snap == m.head.ver && !IsNodePtr(LinkOf(m, m.tail.ptr)) ==> r.n == |items|)
  {
    ListHoldsContents(m);
    LinkOfLive(m, m.tail.ver);
  }

  // ----- ownership

  ghost function FreeNodes(m: Memory): set<Word> {
    set n | n in m.own && m.own[n].Free?
  }

  ghost function ListNodes(m: Memory): set<Word>
    requires Shared(m)
  {
    set k: nat | k < |m.hist| - m.head.ver :: Follow(m, k)
  }

  ghost function HandNodes(s: State, u: Tid): set<Word>
    requires u in s.threads
  {
    set k: nat | k < |s.threads[u].hand| :: s.threads[u].hand[k]
  }

  lemma ListNodesAreLive(m: Memory, n: Word)
    requires Shared(m)
    ensures n in ListNodes(m) <==> IsLive(m, n)
  {
    if n in ListNodes(m) {
      var k: nat :| k < |m.hist| - m.head.ver && n == Follow(m, k);
      FollowIsHistory(m, k);
      assert LiveAt(m, m.head.ver + k);
    }
    if IsLive(m, n) {
      var k: nat := m.own[n].pos - m.head.ver;
      FollowIsHistory(m, k);
      assert n == Follow(m, k);
    }
  }

  lemma HandNodesAreHeld(s: State, u: Tid, n: Word)
    requires Inv(s) && u in s.threads
    ensures n in HandNodes(s, u) <==> HeldBy(s.mem, n, u)
  {
    assert Local(s.mem, u, s.threads[u]);
    var hand := s.threads[u].hand;
    if n in HandNodes(s, u) {
      var k: nat :| k < |hand| && n == hand[k];
      assert HandAt(s.mem, u, s.threads[u], k);
    }
    if HeldBy(s.mem, n, u) {
      assert hand[s.mem.own[n].idx] == n;
    }
  }

  /** Every allocated node is on the free stack, in the list, or in one thread's hands, and only there. */
  lemma NodesArePartitioned(s: State, n: Word)
    requires Inv(s)
    ensures n in s.mem.next <==>
      n in FreeNodes(s.mem) || n in ListNodes(s.mem) || exists u :: u in s.threads && n in HandNodes(s, u)
    ensures n in FreeNodes(s.mem) ==> n !in ListNodes(s.mem)
    ensures forall u :: u in s.threads && n in HandNodes(s, u) ==>
      n !in FreeNodes(s.mem) && n !in ListNodes(s.mem)
    ensures forall u, w :: u in s.threads && w in s.threads && n in HandNodes(s, u) && n in HandNodes(s, w) ==> u == w
  {
    ListNodesAreLive(s.mem, n);
    forall u | u in s.threads
      ensures n in HandNodes(s, u) <==> HeldBy(s.mem, n, u)
    {
      HandNodesAreHeld(s, u, n);
    }
    if n in s.mem.own && s.mem.own[n].Held? {
      assert n in HandNodes(s, s.mem.own[n].tid);
    }
  }

  /** The node a pop returns is not the tail and cannot be reached from head. */
  lemma PoppedNodeIsOut(m: Memory, t: Tid, th: Thread)
    requires Good(m, t, th) && th.pc.Recycle? && |th.hand| == 1
    ensures th.hand[0] != m.tail.ptr && th.hand[0] !in ListNodes(m) && m.tail.ptr in ListNodes(m)
  {
    assert HandAt(m, t, th, 0);
    ListNodesAreLive(m, th.hand[0]);
    FollowIsHistory(m, m.tail.ver - m.head.ver);
    assert m.tail.ptr == Follow(m, m.tail.ver - m.head.ver);
  }

  /** Every pointer a thread is about to follow is the address of an allocated node. */
  lemma DereferencesAreNodes(m: Memory, t: Tid, th: Thread)
    requires Good(m, t, th)
    ensures th.pc.HReadNext? ==> th.hp in m.next
    ensures th.pc.TReadNext? || th.pc.TAct? ==> th.tp in m.next
    ensures th.pc.HCopy? ==> th.nx in m.item && th.nx in m.next
    ensures BuildPc(th.pc) || th.pc.Recycle? ==> th.hand != [] && th.hand[|th.hand| - 1] in m.next
  {
    assert th.hand != [] ==> HandAt(m, t, th, |th.hand| - 1);
  }

  // ----- the assertion in push

  /** push's assert(n != t.ptr), about to swing the tail: it holds in every reachable state, for push_all too. */
  lemma PushAssertHolds(states: seq<State>, moves: seq<Move>, i: nat, t: Tid)
    requires Run(states, moves) && i < |states| && t in states[i].threads && states[i].threads[t].pc.SwingTail?
    ensures states[i].threads[t].last != states[i].threads[t].tp
  {
    RunKeeps(states, moves, i);
    assert TailLocal(states[i].mem, states[i].threads[t]);
  }

  ghost predicate Loops(m: Memory, n: Word) {
    n in m.next && m.next[n] == n
  }

  lemma LinkMakesNoLoop(m: Memory, t: Tid, th: Thread, n: Word)
    requires Good(m, t, th) && AboutToLink(m, th) && Loops(LinkChain(m, t, th).m, n)
    ensures Loops(m, n)
  {
    LinkFacts(m, t, th);
  }

  lemma BuildMakesNoLoop(m: Memory, t: Tid, th: Thread, n: Word)
    requires Positions(m) && Nodes(m) && Tags(m) && Hand(m, t, th) && TagLocal(m, t, th)
    requires BuildPc(th.pc) && th.hand != [] && th.op.PushOp? && Loops(BuildStep(m, t, th).m, n)
    ensures Loops(m, n)
  {
    assert HandAt(m, t, th, |th.hand| - 1);
    assert |th.hand| >= 2 ==> HandAt(m, t, th, |th.hand| - 2);
  }

  lemma OthersMakeNoLoop(m: Memory, t: Tid, th: Thread, c: Choice, n: Word)
    requires Nodes(m) && Enabled(m, th, c) && !c.Relink?
    requires c.Go? ==> !BuildPc(th.pc) && !AboutToLink(m, th)
    requires Loops(Apply(m, t, th, c).m, n)
    ensures Loops(m, n)
  {
  }

  /** The queue never makes a node point to itself; what the free stack writes is up to the free stack. */
  lemma NoNodeLinksToItself(m: Memory, t: Tid, th: Thread, c: Choice, n: Word)
    requires Good(m, t, th) && Enabled(m, th, c) && !c.Relink? && Loops(Apply(m, t, th, c).m, n)
    ensures Loops(m, n)
  {
    if c.Go? && BuildPc(th.pc) {
      BuildMakesNoLoop(m, t, th, n);
    } else if c.Go? && AboutToLink(m, th) {
      TailActCases(m, t, th);
      LinkMakesNoLoop(m, t, th, n);
    } else {
      OthersMakeNoLoop(m, t, th, c, n);
    }
  }
}
