/** Every step of the queue machine keeps the invariant. */
module QueueSteps {
  import opened QueueMachine
  import opened QueueInvariant

  /** What a step lemma may use: the shared memory and the stepping thread, no other thread. */
  ghost predicate Good(m: Memory, t: Tid, th: Thread) {
    Shared(m) && Local(m, t, th)
  }

  lemma SameMemory(m: Memory, t: Tid)
    requires Nodes(m)
    ensures Others(m, m, t)
  {
    forall u | u != t
      ensures Rely(m, m, u)
    {
      assert RelyTags(m, m, u) && RelyNodes(m, m, u);
    }
  }

  /** A step inside the loop around head that leaves the memory alone. */
  ghost predicate Quiet(m: Memory, th: Thread, r: Pair) {
    && r.m == m && HeadPc(th.pc) && (HeadPc(r.th.pc) || r.th.pc.Done?)
    && r.th.hand == [] && r.th.base == th.base && Shape(m.width, r.th) && HeadLocal(m, r.th)
  }

  lemma QuietHead(m: Memory, t: Tid, th: Thread, r: Pair)
    requires Good(m, t, th) && Quiet(m, th, r)
    ensures Kept(m, t, r)
  {
    SameMemory(m, t);
    EmptyHand(m, t, th, m, r.th);
    assert TailLocal(m, r.th);
  }

  lemma LiveNotHeld(m: Memory, t: Tid, n: Word)
    requires Shared(m) && HeldBy(m, n, t)
    ensures forall i :: m.head.ver <= i < |m.hist| ==> m.hist[i] != n
  {
    forall i | m.head.ver <= i < |m.hist|
      ensures m.hist[i] != n
    {
      assert LiveAt(m, i);
    }
  }

  // ----- the loop around head

  /** A live node's link word is its successor, or a linked tag at the end of the chain. */
  lemma LinkOfLive(m: Memory, i: nat)
    requires Shared(m) && m.head.ver <= i < |m.hist|
    ensures m.hist[i] in m.own
    ensures if i + 1 < |m.hist| then LinkOf(m, m.hist[i]) == m.hist[i + 1] && IsNodePtr(m.hist[i + 1])
            else LinkedTag(m, LinkOf(m, m.hist[i])) && !IsNodePtr(LinkOf(m, m.hist[i]))
  {
    assert LiveAt(m, i);
    if i + 1 < |m.hist| {
      assert m.hist[i + 1] in m.own;
    }
  }

  lemma DistinctLive(m: Memory, i: nat, j: nat)
    requires Shared(m) && m.head.ver <= i < |m.hist| && m.head.ver <= j < |m.hist| && m.hist[i] == m.hist[j]
    ensures i == j
  {
    assert LiveAt(m, i) && LiveAt(m, j);
  }

  lemma HeadReadLocal(m: Memory, t: Tid, th: Thread)
    requires Positions(m) && Nodes(m) && HeadLocal(m, th)
    requires HeadRead(th.pc)
    ensures HeadLocal(m, HeadStep(m, t, th).th)
  {
    if th.pc.HReadTailPtr? && HeadIs(m, th) && m.tail.ptr != th.hp {
      assert m.head.ver != m.tail.ver;
    }
    assert m.hist[m.head.ver] in m.own && m.hist[m.tail.ver] in m.own;
  }

  ghost predicate HeadRead(pc: Pc) {
    pc.HReadPtr? || pc.HReadVer? || pc.HReadTailPtr? || pc.HReadTailVer? || pc.HCheckPtr? || pc.HCheckVer?
  }

  /** The parts of a head-loop step that no invariant on the memory is needed for. */
  lemma HeadStepShape(m: Memory, t: Tid, th: Thread)
    requires Shape(m.width, th) && HeadPc(th.pc) && (HeadRead(th.pc) || th.pc.HReadNext? || th.pc.HCopy?)
    ensures var r := HeadStep(m, t, th);
      r.m == m && HeadPc(r.th.pc) && r.th.hand == [] && r.th.base == th.base && Shape(m.width, r.th)
  {
  }

  lemma HeadReadNextLocal(m: Memory, t: Tid, th: Thread)
    requires Shared(m) && HeadLocal(m, th) && th.pc.HReadNext?
    ensures HeadLocal(m, HeadStep(m, t, th).th)
  {
    LinkOfLive(m, m.head.ver);
    LinkOfLive(m, m.tail.ver);
  }

  lemma CopyLocal(m: Memory, t: Tid, th: Thread)
    requires Shared(m) && HeadLocal(m, th) && th.pc.HCopy?
    ensures HeadLocal(m, HeadStep(m, t, th).th)
  {
    if HeadIs(m, th) {
      assert m.hist[th.hv + 1] == th.nx;
      assert LiveAt(m, th.hv + 1);
    }
  }

  lemma KeepHeadRead(m: Memory, t: Tid, th: Thread)
    requires Good(m, t, th)
    requires HeadPc(th.pc) && !th.pc.HAct? && !th.pc.HCas?
    ensures Kept(m, t, HeadStep(m, t, th))
  {
    if th.pc.HReadNext? {
      HeadReadNextLocal(m, t, th);
    } else if th.pc.HCopy? {
      CopyLocal(m, t, th);
    } else {
      HeadReadLocal(m, t, th);
    }
    HeadStepShape(m, t, th);
    QuietHead(m, t, th, HeadStep(m, t, th));
  }

  // ----- moving the tail

  lemma MoveTail(m: Memory, t: Tid, to: Wrap)
    requires Shared(m) && m.tail.ver < to.ver && NodeAt(m, to.ver, to.ptr)
    ensures Shared(m.(tail := to))
    ensures Others(m, m.(tail := to), t)
  {
    var m' := m.(tail := to);
    forall i | m.head.ver <= i < |m.hist|
      ensures LiveAt(m', i)
    {
      assert LiveAt(m, i);
    }
    forall n | IsLive(m', n)
      ensures m.head.ver <= m.own[n].pos < |m.hist| && m.hist[m.own[n].pos] == n
    {
      assert IsLive(m, n);
    }
    forall u | u != t
      ensures Rely(m, m', u)
    {
      assert RelyTags(m, m', u) && RelyNodes(m, m', u);
    }
  }

  /** A tail compare-and-swap whose new pair is right whenever its old pair is the tail. */
  lemma CasTailKeeps(m: Memory, t: Tid, was: Wrap, now: Wrap)
    requires Shared(m) && (m.tail == was ==> m.tail.ver < now.ver && NodeAt(m, now.ver, now.ptr))
    ensures Shared(CasTail(m, was, now)) && Others(m, CasTail(m, was, now), t)
  {
    if m.tail == was {
      MoveTail(m, t, now);
    } else {
      SameMemory(m, t);
    }
  }

  /** A thread that stays in its loop keeps what it holds. */
  lemma HandSurvives(m: Memory, m': Memory, t: Tid, th: Thread, th': Thread)
    requires Hand(m, t, th) && ChainLocal(m, th) && TagLocal(m, t, th)
    requires m'.own == m.own && m'.next == m.next && m'.item == m.item && m'.tags == m.tags
    requires th'.hand == th.hand && th'.op == th.op && th'.tag == th.tag
    requires HoldsChain(th') ==> HoldsChain(th) && !PushPc(th.pc) && !PushPc(th'.pc)
    ensures Hand(m', t, th') && ChainLocal(m', th') && TagLocal(m', t, th')
  {
    forall k | 0 <= k < |th.hand|
      ensures HandAt(m', t, th', k)
      ensures HoldsChain(th') ==> ChainAt(m', th', k)
    {
      assert HandAt(m, t, th, k);
      if HoldsChain(th') {
        assert ChainAt(m, th, k);
      }
    }
    forall n | HeldBy(m', n, t)
      ensures m'.own[n].idx < |th.hand| && th.hand[m'.own[n].idx] == n
    {
      assert HeldBy(m, n, t);
    }
  }

  lemma EmptyHand(m: Memory, t: Tid, th: Thread, m': Memory, th': Thread)
    requires Hand(m, t, th) && th.hand == [] && th'.hand == []
    requires m'.own == m.own
    ensures Hand(m', t, th')
  {
    forall n | HeldBy(m', n, t)
      ensures false
    {
      assert HeldBy(m, n, t);
    }
  }

  // ----- popping

  /** Right before a head compare-and-swap that will succeed. */
  ghost predicate AboutToPop(m: Memory, th: Thread) {
    && ((th.pc.HCas? && th.op == PopOp(true)) || (th.pc.HAct? && th.op == PopOp(false)))
    && th.hp != th.tp && HeadIs(m, th)
  }

  /** The head compare-and-swap removes the oldest item, and the copy made before it is that item. */
  lemma PopFacts(m: Memory, t: Tid, th: Thread)
    requires Good(m, t, th) && AboutToPop(m, th)
    ensures m.head.ver < m.tail.ver
    ensures NodeAt(m, m.head.ver + 1, th.nx)
    ensures th.op == PopOp(true) ==> th.buf == m.vals[m.head.ver + 1]
    ensures th.hp in m.own && m.own[th.hp] == Live(m.head.ver)
  {
    assert LiveAt(m, m.head.ver);
  }

  lemma TakeHeadShared(m: Memory, t: Tid, th: Thread)
    requires Good(m, t, th) && AboutToPop(m, th)
    ensures Shared(TakeHead(m, t, th).m)
  {
    PopFacts(m, t, th);
    var m' := TakeHead(m, t, th).m;
    assert Positions(m') && Nodes(m');
    forall i | m'.head.ver <= i < |m'.hist|
      ensures LiveAt(m', i)
    {
      assert LiveAt(m, i);
    }
    forall n | IsLive(m', n)
      ensures m'.head.ver <= m'.own[n].pos < |m'.hist| && m'.hist[m'.own[n].pos] == n
    {
      assert IsLive(m, n);
    }
    TakeHeadTags(m, t, th);
  }

  lemma TakeHeadTags(m: Memory, t: Tid, th: Thread)
    requires Positions(m) && Nodes(m) && Tags(m) && th.hp in m.own
    requires var m' := TakeHead(m, t, th).m; Positions(m') && Nodes(m')
    ensures Tags(TakeHead(m, t, th).m)
  {
  }

  lemma TakeHeadHand(m: Memory, t: Tid, th: Thread)
    requires Good(m, t, th) && AboutToPop(m, th)
    ensures var r := TakeHead(m, t, th); Hand(r.m, t, r.th)
    ensures forall u :: u != t ==> RelyNodes(m, TakeHead(m, t, th).m, u)
  {
    PopFacts(m, t, th);
    var r := TakeHead(m, t, th);
    assert HandAt(r.m, t, r.th, 0);
    forall n | HeldBy(r.m, n, t)
      ensures n == th.hp && r.m.own[n].idx == 0
    {
      if n != th.hp {
        assert HeldBy(m, n, t);
        assert false;
      }
    }
    forall u | u != t
      ensures RelyNodes(m, r.m, u)
    {
      forall n | HeldBy(r.m, n, u)
        ensures HeldBy(m, n, u)
      {
      }
    }
  }

  lemma KeepTakeHead(m: Memory, t: Tid, th: Thread)
    requires Good(m, t, th) && AboutToPop(m, th)
    ensures Kept(m, t, TakeHead(m, t, th))
  {
    TakeHeadShared(m, t, th);
    TakeHeadHand(m, t, th);
  }

  /** The attempt is over; the thread holds nothing, as before. */
  lemma RestartHead(m: Memory, m': Memory, t: Tid, th: Thread)
    requires Shape(m.width, th) && SizeLocal(m, th) && Hand(m, t, th) && th.pc.HAct? && m' == m.(tail := m'.tail)
    ensures Local(m', t, th.(pc := HReadPtr))
  {
    EmptyHand(m, t, th, m', th.(pc := HReadPtr));
  }

  lemma KeepHeadHelp(m: Memory, t: Tid, th: Thread)
    requires Good(m, t, th) && th.pc.HAct? && th.hp == th.tp && IsNodePtr(th.nx)
    ensures Kept(m, t, Pair(CasTail(m, Wrap(th.tp, th.tv), Wrap(th.nx, th.tv + 1)), th.(pc := HReadPtr)))
  {
    CasTailKeeps(m, t, Wrap(th.tp, th.tv), Wrap(th.nx, th.tv + 1));
    RestartHead(m, CasTail(m, Wrap(th.tp, th.tv), Wrap(th.nx, th.tv + 1)), t, th);
  }

  /** A compare-and-swap that fails, a peek that succeeds, an empty queue: the memory stays. */
  lemma HeadActQuiet(m: Memory, t: Tid, th: Thread)
    requires Positions(m) && Shape(m.width, th) && HeadLocal(m, th) && (th.pc.HAct? || th.pc.HCas?)
    requires !AboutToPop(m, th) && (th.pc.HAct? ==> th.hp != th.tp || !IsNodePtr(th.nx))
    ensures Quiet(m, th, HeadStep(m, t, th))
  {
    if th.pc.HCas? {
      HeadCasQuiet(m, t, th);
    }
  }

  lemma HeadCasQuiet(m: Memory, t: Tid, th: Thread)
    requires Positions(m) && Shape(m.width, th) && HeadLocal(m, th) && th.pc.HCas? && !AboutToPop(m, th)
    ensures Quiet(m, th, HeadStep(m, t, th))
  {
  }

  lemma KeepHeadRetry(m: Memory, t: Tid, th: Thread)
    requires Good(m, t, th) && (th.pc.HAct? || th.pc.HCas?)
    requires !AboutToPop(m, th) && (th.pc.HAct? ==> th.hp != th.tp || !IsNodePtr(th.nx))
    ensures Kept(m, t, HeadStep(m, t, th))
  {
    HeadActQuiet(m, t, th);
    QuietHead(m, t, th, HeadStep(m, t, th));
  }

  lemma HeadActs(m: Memory, t: Tid, th: Thread)
    requires th.pc.HAct? || th.pc.HCas?
    ensures AboutToPop(m, th) ==> HeadStep(m, t, th) == TakeHead(m, t, th)
    ensures th.pc.HAct? && th.hp == th.tp && IsNodePtr(th.nx) ==>
      HeadStep(m, t, th) == Pair(CasTail(m, Wrap(th.tp, th.tv), Wrap(th.nx, th.tv + 1)), th.(pc := HReadPtr))
  {
  }

  lemma KeepHeadAct(m: Memory, t: Tid, th: Thread, r: Pair)
    requires Good(m, t, th) && (th.pc.HAct? || th.pc.HCas?) && r == HeadStep(m, t, th)
    ensures Kept(m, t, r)
  {
    HeadActs(m, t, th);
    if AboutToPop(m, th) {
      KeepTakeHead(m, t, th);
    } else if th.pc.HAct? && th.hp == th.tp && IsNodePtr(th.nx) {
      KeepHeadHelp(m, t, th);
    } else {
      KeepHeadRetry(m, t, th);
    }
  }

  // ----- the loop around tail

  lemma TailReadLocal(m: Memory, t: Tid, th: Thread)
    requires Shared(m) && TailLocal(m, th)
    requires th.pc.TReadPtr? || th.pc.TReadVer? || th.pc.TReadNext? || th.pc.TCheckPtr? || th.pc.TCheckVer?
    ensures TailLocal(m, TailStep(m, t, th).th)
  {
    LinkOfLive(m, m.tail.ver);
  }

  /** The tail whose link word is a null tag is the last node. */
  lemma TailReadSize(m: Memory, t: Tid, th: Thread)
    requires Shared(m) && TailLocal(m, th) && SizeLocal(m, th)
    requires th.pc.TReadPtr? || th.pc.TReadVer? || th.pc.TReadNext? || th.pc.TCheckPtr? || th.pc.TCheckVer?
    ensures SizeLocal(m, TailStep(m, t, th).th)
  {
    LinkOfLive(m, m.tail.ver);
  }

  lemma TailReadShape(m: Memory, t: Tid, th: Thread)
    requires Shape(m.width, th)
    requires th.pc.TReadPtr? || th.pc.TReadVer? || th.pc.TReadNext? || th.pc.TCheckPtr? || th.pc.TCheckVer?
    ensures SameAttempt(m, th, TailStep(m, t, th))
  {
  }

  /** A step inside the loop around tail that leaves the memory alone. */
  ghost predicate SameAttempt(m: Memory, th: Thread, r: Pair) {
    && r.m == m && TailPc(th.pc) && !th.pc.SwingTail? && TailPc(r.th.pc) && !r.th.pc.SwingTail?
    && r.th.hand == th.hand && r.th.op == th.op && r.th.tag == th.tag
    && Shape(m.width, r.th)
  }

  lemma QuietTail(m: Memory, t: Tid, th: Thread, r: Pair)
    requires Good(m, t, th) && SameAttempt(m, th, r) && TailLocal(m, r.th) && SizeLocal(m, r.th)
    ensures Kept(m, t, r)
  {
    SameMemory(m, t);
    HandSurvives(m, m, t, th, r.th);
    assert HeadLocal(m, r.th);
  }

  lemma KeepTailRead(m: Memory, t: Tid, th: Thread)
    requires Good(m, t, th)
    requires th.pc.TReadPtr? || th.pc.TReadVer? || th.pc.TReadNext? || th.pc.TCheckPtr? || th.pc.TCheckVer?
    ensures Kept(m, t, TailStep(m, t, th))
  {
    TailReadLocal(m, t, th);
    TailReadSize(m, t, th);
    TailReadShape(m, t, th);
    QuietTail(m, t, th, TailStep(m, t, th));
  }

  lemma KeepSize(m: Memory, t: Tid, th: Thread)
    requires Good(m, t, th) && (th.pc.SizeHead? || th.pc.SizeTail?)
    ensures Kept(m, t, TailStep(m, t, th))
  {
    SameMemory(m, t);
    EmptyHand(m, t, th, m, TailStep(m, t, th).th);
  }

  lemma KeepSwingTail(m: Memory, t: Tid, th: Thread)
    requires Good(m, t, th) && th.pc.SwingTail?
    ensures Kept(m, t, Pair(CasTail(m, Wrap(th.tp, th.tv), Wrap(th.last, th.tv + |th.op.batch|)), th.(pc := Done)))
  {
    var m' := CasTail(m, Wrap(th.tp, th.tv), Wrap(th.last, th.tv + |th.op.batch|));
    CasTailKeeps(m, t, Wrap(th.tp, th.tv), Wrap(th.last, th.tv + |th.op.batch|));
    SwungLocal(m, m', t, th);
  }

  lemma SwungLocal(m: Memory, m': Memory, t: Tid, th: Thread)
    requires Shape(m.width, th) && SizeLocal(m, th) && Hand(m, t, th) && th.pc.SwingTail?
    requires m' == m.(tail := m'.tail)
    ensures Local(m', t, th.(pc := Done))
  {
    EmptyHand(m, t, th, m', th.(pc := Done));
  }

  /** The attempt is over; what the thread holds is as before. */
  lemma RetryLocal(m: Memory, m': Memory, t: Tid, th: Thread)
    requires Shape(m.width, th) && SizeLocal(m, th) && Hand(m, t, th) && ChainLocal(m, th) && TagLocal(m, t, th)
    requires th.pc.TAct? && m' == m.(tail := m'.tail)
    ensures Local(m', t, th.(pc := TReadPtr))
  {
    HandSurvives(m, m', t, th, th.(pc := TReadPtr));
  }

  lemma KeepHelp(m: Memory, t: Tid, th: Thread)
    requires Good(m, t, th) && th.pc.TAct? && IsNodePtr(th.nx)
    ensures Kept(m, t, Pair(CasTail(m, Wrap(th.tp, th.tv), Wrap(th.nx, th.tv + 1)), th.(pc := TReadPtr)))
  {
    CasTailKeeps(m, t, Wrap(th.tp, th.tv), Wrap(th.nx, th.tv + 1));
    RetryLocal(m, CasTail(m, Wrap(th.tp, th.tv), Wrap(th.nx, th.tv + 1)), t, th);
  }

  /** Right before a link compare-and-swap that will succeed. */
  ghost predicate AboutToLink(m: Memory, th: Thread) {
    th.pc.TAct? && th.op.PushOp? && th.hand != [] && !IsNodePtr(th.nx) && LinkOf(m, th.tp) == th.nx
  }

  /** A node whose link word still holds the tag is the last live node, however often it was reused. */
  lemma LinkFacts(m: Memory, t: Tid, th: Thread)
    requires Good(m, t, th) && AboutToLink(m, th)
    ensures th.tp == LastNode(m)
    ensures th.tp in m.own && m.own[th.tp] == Live(|m.hist| - 1)
    ensures m.tail.ver == th.tv ==> th.tv == |m.hist| - 1
    ensures forall k :: 0 <= k < |th.hand| ==> th.hand[k] != th.tp
  {
    assert LinkedTag(m, th.nx) && th.tp in m.next;
    assert LiveAt(m, |m.hist| - 1);
    if m.tail.ver == th.tv {
      DistinctLive(m, m.tail.ver, |m.hist| - 1);
    }
    forall k | 0 <= k < |th.hand|
      ensures th.hand[k] != th.tp
    {
      assert HandAt(m, t, th, k);
    }
  }

  lemma LinkNodes(m: Memory, t: Tid, th: Thread)
    requires Good(m, t, th) && AboutToLink(m, th)
    ensures var m' := LinkChain(m, t, th).m; Positions(m') && Nodes(m')
  {
    LinkFacts(m, t, th);
    var m' := LinkChain(m, t, th).m;
    assert m'.next.Keys == m.next.Keys;
    assert m'.own.Keys == m.own.Keys;
    forall i | 0 <= i < |m'.hist|
      ensures m'.hist[i] in m'.own
    {
      if i >= |m.hist| {
        assert HandAt(m, t, th, i - |m.hist|);
      }
    }
  }

  lemma LinkLiveAt(m: Memory, t: Tid, th: Thread, i: nat)
    requires Good(m, t, th) && AboutToLink(m, th)
    requires var m' := LinkChain(m, t, th).m;
      Positions(m') && Nodes(m') && m.head.ver <= i < |m'.hist|
    ensures LiveAt(LinkChain(m, t, th).m, i)
  {
    LinkFacts(m, t, th);
    if i < |m.hist| {
      LinkKeepsLive(m, t, th, i);
    } else {
      LinkAddsLive(m, t, th, i);
    }
  }

  lemma LinkKeepsLive(m: Memory, t: Tid, th: Thread, i: nat)
    requires Positions(m) && Nodes(m) && LiveChain(m) && AboutToLink(m, th) && th.tp == LastNode(m)
    requires Nodes(LinkChain(m, t, th).m) && |th.hand| == |th.op.batch| && m.head.ver <= i < |m.hist|
    ensures LiveAt(LinkChain(m, t, th).m, i)
  {
    assert LiveAt(m, i) && LiveAt(m, |m.hist| - 1);
  }

  lemma LinkAddsLive(m: Memory, t: Tid, th: Thread, i: nat)
    requires Positions(m) && Nodes(m) && Hand(m, t, th) && ChainLocal(m, th) && AboutToLink(m, th)
    requires Nodes(LinkChain(m, t, th).m) && |m.hist| <= i < |m.hist| + |th.hand|
    requires forall k :: 0 <= k < |th.hand| ==> th.hand[k] != th.tp
    ensures LiveAt(LinkChain(m, t, th).m, i)
  {
    var k := i - |m.hist|;
    assert HandAt(m, t, th, k) && ChainAt(m, th, k);
  }

  lemma LinkLiveOnly(m: Memory, t: Tid, th: Thread)
    requires Good(m, t, th) && AboutToLink(m, th)
    requires Positions(LinkChain(m, t, th).m)
    ensures LiveOnly(LinkChain(m, t, th).m)
  {
    var m' := LinkChain(m, t, th).m;
    forall n | IsLive(m', n)
      ensures m'.head.ver <= m'.own[n].pos < |m'.hist| && m'.hist[m'.own[n].pos] == n
    {
      assert IsLive(m, n) || HeldBy(m, n, t);
    }
  }

  lemma LinkTags(m: Memory, t: Tid, th: Thread)
    requires Good(m, t, th) && AboutToLink(m, th)
    requires var m' := LinkChain(m, t, th).m; Positions(m') && Nodes(m')
    ensures Tags(LinkChain(m, t, th).m)
  {
    LinkFacts(m, t, th);
    var m' := LinkChain(m, t, th).m;
    var end := th.hand[|th.hand| - 1];
    assert HandAt(m, t, th, 0) && HandAt(m, t, th, |th.hand| - 1);
    assert LastNode(m') == end;
    assert LinkOf(m, end) == th.tag;
    assert IsNodePtr(m'.next[th.tp]);
  }

  lemma LinkRely(m: Memory, t: Tid, th: Thread, u: Tid)
    requires Good(m, t, th) && AboutToLink(m, th) && u != t
    ensures Rely(m, LinkChain(m, t, th).m, u)
  {
    LinkFacts(m, t, th);
    var m' := LinkChain(m, t, th).m;
    assert HandAt(m, t, th, 0);
    assert m.tags[th.tag] == Mine(t);
    assert RelyTags(m, m', u);
    forall n | HeldBy(m', n, u)
      ensures HeldBy(m, n, u)
    {
    }
    assert RelyNodes(m, m', u);
  }

  lemma LinkLocal(m: Memory, t: Tid, th: Thread)
    requires Good(m, t, th) && AboutToLink(m, th)
    ensures var r := LinkChain(m, t, th); Local(r.m, t, r.th)
  {
    LinkFacts(m, t, th);
    LinkHand(m, t, th);
    LinkTailLocal(m, t, th);
  }

  lemma LinkHand(m: Memory, t: Tid, th: Thread)
    requires Hand(m, t, th) && AboutToLink(m, th)
    ensures var r := LinkChain(m, t, th); Hand(r.m, t, r.th)
  {
    var r := LinkChain(m, t, th);
    forall n | HeldBy(r.m, n, t)
      ensures false
    {
    }
  }

  lemma LinkTailLocal(m: Memory, t: Tid, th: Thread)
    requires AboutToLink(m, th) && TailLocal(m, th) && |th.hand| == |th.op.batch|
    requires m.tail.ver == th.tv ==> th.tv == |m.hist| - 1
    requires th.hand[|th.hand| - 1] != th.tp
    ensures var r := LinkChain(m, t, th); TailLocal(r.m, r.th)
  {
    var r := LinkChain(m, t, th);
    assert r.m.hist[|m.hist| + |th.hand| - 1] == th.hand[|th.hand| - 1];
  }

  lemma KeepLink(m: Memory, t: Tid, th: Thread)
    requires Good(m, t, th) && AboutToLink(m, th)
    ensures Kept(m, t, LinkChain(m, t, th))
  {
    var m' := LinkChain(m, t, th).m;
    LinkNodes(m, t, th);
    forall i | m'.head.ver <= i < |m'.hist|
      ensures LiveAt(m', i)
    {
      LinkLiveAt(m, t, th, i);
    }
    LinkLiveOnly(m, t, th);
    LinkTags(m, t, th);
    LinkLocal(m, t, th);
    forall u | u != t
      ensures Rely(m, m', u)
    {
      LinkRely(m, t, th, u);
    }
  }

  /** A link compare-and-swap that fails, or the end of size's wait for a current tail. */
  lemma TailActQuiet(m: Memory, t: Tid, th: Thread)
    requires Shape(m.width, th) && TailLocal(m, th) && SizeLocal(m, th)
    requires th.pc.TAct? && (th.op.PushOp? ==> th.hand != []) && !IsNodePtr(th.nx) && !AboutToLink(m, th)
    ensures var r := TailStep(m, t, th); SameAttempt(m, th, r) && TailLocal(m, r.th) && SizeLocal(m, r.th)
  {
  }

  lemma KeepTailRetry(m: Memory, t: Tid, th: Thread)
    requires Good(m, t, th) && th.pc.TAct? && !IsNodePtr(th.nx) && !AboutToLink(m, th)
    ensures Kept(m, t, TailStep(m, t, th))
  {
    TailActQuiet(m, t, th);
    QuietTail(m, t, th, TailStep(m, t, th));
  }

  /** The two memory-changing branches of TAct, by name. */
  lemma TailActCases(m: Memory, t: Tid, th: Thread)
    requires th.pc.TAct?
    ensures IsNodePtr(th.nx) ==>
      TailStep(m, t, th) == Pair(CasTail(m, Wrap(th.tp, th.tv), Wrap(th.nx, th.tv + 1)), th.(pc := TReadPtr))
    ensures AboutToLink(m, th) ==> TailStep(m, t, th) == LinkChain(m, t, th)
  {
  }

  lemma KeepTailAct(m: Memory, t: Tid, th: Thread)
    requires Good(m, t, th) && th.pc.TAct?
    ensures Kept(m, t, TailStep(m, t, th))
  {
    TailActCases(m, t, th);
    if IsNodePtr(th.nx) {
      KeepHelp(m, t, th);
    } else if AboutToLink(m, th) {
      KeepLink(m, t, th);
    } else {
      KeepTailRetry(m, t, th);
    }
  }

  // ----- building the chain

  /** A node that is not live changes without disturbing the live chain. */
  lemma LiveUntouched(m: Memory, m': Memory, p: Word)
    requires Shared(m) && (p in m.own ==> !m.own[p].Live?)
    requires m'.head == m.head && m'.hist == m.hist && m'.vals == m.vals && Nodes(m')
    requires forall n :: n in m.own && n != p ==>
      n in m'.own && m'.own[n] == m.own[n] && m'.item[n] == m.item[n] && m'.next[n] == m.next[n]
    requires p in m'.own && m'.own.Keys <= m.own.Keys + {p} && !m'.own[p].Live?
    requires Positions(m')
    ensures LiveChain(m') && LiveOnly(m')
  {
    forall i | m'.head.ver <= i < |m'.hist|
      ensures LiveAt(m', i)
    {
      assert LiveAt(m, i);
    }
    forall n | IsLive(m', n)
      ensures m'.head.ver <= m'.own[n].pos < |m'.hist| && m'.hist[m'.own[n].pos] == n
    {
      assert IsLive(m, n);
    }
  }

  /** No write outside the last live node disturbs the tags, if it is even or a tag not linked. */
  lemma WriteKeepsTags(m: Memory, m': Memory, n: Word, w: Word)
    requires Positions(m) && Nodes(m) && Tags(m) && Positions(m') && Nodes(m')
    requires m'.hist == m.hist && m'.tags == m.tags && m'.counter == m.counter && m'.next == m.next[n := w]
    requires n != LastNode(m) && (IsNodePtr(w) || (w in m.tags && m.tags[w] != Linked))
    ensures Tags(m')
  {
  }

  lemma CreateShared(m: Memory, t: Tid, th: Thread, p: Word)
    requires Good(m, t, th) && Enabled(m, th, Use(p))
    ensures Shared(CreateNode(m, t, th, p).m)
  {
    assert LiveAt(m, |m.hist| - 1);
    CreateNodes(m, t, th, p);
    LiveUntouched(m, CreateNode(m, t, th, p).m, p);
    WriteKeepsTags(m, CreateNode(m, t, th, p).m, p, 0);
  }

  lemma CreateNodes(m: Memory, t: Tid, th: Thread, p: Word)
    requires Positions(m) && Nodes(m) && Enabled(m, th, Use(p))
    ensures var m' := CreateNode(m, t, th, p).m; Positions(m') && Nodes(m')
  {
  }

  lemma CreateLocal(m: Memory, t: Tid, th: Thread, p: Word)
    requires Good(m, t, th) && Enabled(m, th, Use(p))
    ensures var r := CreateNode(m, t, th, p); Local(r.m, t, r.th)
  {
    CreateHand(m, t, th, p);
  }

  lemma CreateHand(m: Memory, t: Tid, th: Thread, p: Word)
    requires Hand(m, t, th) && ChainLocal(m, th) && Enabled(m, th, Use(p))
    ensures var r := CreateNode(m, t, th, p); Hand(r.m, t, r.th) && ChainLocal(r.m, r.th)
  {
    var r := CreateNode(m, t, th, p);
    forall k | 0 <= k < |r.th.hand|
      ensures HandAt(r.m, t, r.th, k) && ChainAt(r.m, r.th, k)
    {
      if k < |th.hand| {
        assert HandAt(m, t, th, k) && ChainAt(m, th, k);
      }
    }
    forall n | HeldBy(r.m, n, t)
      ensures r.m.own[n].idx < |r.th.hand| && r.th.hand[r.m.own[n].idx] == n
    {
      if n != p {
        assert HeldBy(m, n, t);
      }
    }
  }

  lemma KeepCreate(m: Memory, t: Tid, th: Thread, p: Word)
    requires Good(m, t, th) && Enabled(m, th, Use(p))
    ensures Kept(m, t, CreateNode(m, t, th, p))
  {
    CreateShared(m, t, th, p);
    CreateLocal(m, t, th, p);
    CreateOthers(m, t, th, p);
  }

  lemma CreateOthers(m: Memory, t: Tid, th: Thread, p: Word)
    requires Positions(m) && Nodes(m) && Tags(m) && Enabled(m, th, Use(p))
    ensures Others(m, CreateNode(m, t, th, p).m, t)
  {
    forall u | u != t
      ensures Rely(m, CreateNode(m, t, th, p).m, u)
    {
      CreateRely(m, t, th, p, u);
    }
  }

  lemma CreateRely(m: Memory, t: Tid, th: Thread, p: Word, u: Tid)
    requires Positions(m) && Nodes(m) && Tags(m) && Enabled(m, th, Use(p)) && u != t
    ensures Rely(m, CreateNode(m, t, th, p).m, u)
  {
    var m' := CreateNode(m, t, th, p).m;
    assert RelyTags(m, m', u);
    forall n | HeldBy(m', n, u)
      ensures HeldBy(m, n, u)
    {
    }
    assert RelyNodes(m, m', u);
  }

  /** Writing a link word of one's own disturbs nobody, if it is even or one's own tag. */
  lemma OwnWrite(m: Memory, t: Tid, n: Word, w: Word)
    requires Shared(m) && HeldBy(m, n, t)
    requires IsNodePtr(w) || (w in m.tags && m.tags[w] == Mine(t))
    ensures Shared(m.(next := m.next[n := w]))
    ensures Others(m, m.(next := m.next[n := w]), t)
  {
    LiveNotHeld(m, t, n);
    var m' := m.(next := m.next[n := w]);
    assert Positions(m') && Nodes(m');
    LiveUntouched(m, m', n);
    WriteKeepsTags(m, m', n, w);
    OwnWriteOthers(m, t, n, w);
  }

  lemma OwnWriteOthers(m: Memory, t: Tid, n: Word, w: Word)
    requires Positions(m) && Nodes(m) && Tags(m) && HeldBy(m, n, t)
    requires IsNodePtr(w) || (w in m.tags && m.tags[w] == Mine(t))
    ensures Others(m, m.(next := m.next[n := w]), t)
  {
    var m' := m.(next := m.next[n := w]);
    forall u | u != t
      ensures Rely(m, m', u)
    {
      forall x | HeldBy(m', x, u)
        ensures HeldBy(m, x, u)
      {
      }
      assert RelyNodes(m, m', u);
    }
  }

  /** The hand after a write to its node k. */
  lemma HandAfterWrite(m: Memory, t: Tid, th: Thread, k: nat, w: Word, th': Thread)
    requires Hand(m, t, th) && k < |th.hand| && th'.hand == th.hand
    ensures HeldBy(m, th.hand[k], t)
    ensures Hand(m.(next := m.next[th.hand[k] := w]), t, th')
    ensures forall j :: 0 <= j < |th.hand| && j != k ==> th.hand[j] != th.hand[k]
  {
    var m' := m.(next := m.next[th.hand[k] := w]);
    assert HandAt(m, t, th, k);
    forall j | 0 <= j < |th.hand|
      ensures HandAt(m', t, th', j) && (j != k ==> th.hand[j] != th.hand[k])
    {
      assert HandAt(m, t, th, j);
    }
    forall n | HeldBy(m', n, t)
      ensures m'.own[n].idx < |th.hand| && th.hand[m'.own[n].idx] == n
    {
      assert HeldBy(m, n, t);
    }
  }

  lemma KeepChain(m: Memory, t: Tid, th: Thread)
    requires Good(m, t, th) && th.pc.Chain? && th.hand != []
    ensures Kept(m, t, BuildStep(m, t, th))
  {
    ChainLink(m, t, th, BuildStep(m, t, th).m);
    ChainStepLocal(m, t, th);
  }

  /** The link of the new node, if there is a node before it. */
  lemma ChainLink(m: Memory, t: Tid, th: Thread, m': Memory)
    requires Shared(m) && Hand(m, t, th) && th.pc.Chain? && th.hand != [] && m' == BuildStep(m, t, th).m
    ensures Shared(m') && Others(m, m', t)
  {
    var n := |th.hand|;
    if n >= 2 {
      assert HandAt(m, t, th, n - 1) && HandAt(m, t, th, n - 2);
      OwnWrite(m, t, th.hand[n - 2], th.hand[n - 1]);
      assert m' == m.(next := m.next[th.hand[n - 2] := th.hand[n - 1]]);
    } else {
      assert m' == m;
      SameMemory(m, t);
    }
  }

  lemma ChainStepHand(m: Memory, t: Tid, th: Thread)
    requires Hand(m, t, th) && th.pc.Chain? && th.hand != []
    ensures var r := BuildStep(m, t, th); Hand(r.m, t, r.th)
  {
    var n := |th.hand|;
    var th' := BuildStep(m, t, th).th;
    if n >= 2 {
      HandAfterWrite(m, t, th, n - 2, th.hand[n - 1], th');
    } else {
      forall j | 0 <= j < n
        ensures HandAt(m, t, th', j)
      {
        assert HandAt(m, t, th, j);
      }
    }
  }

  lemma ChainStepLocal(m: Memory, t: Tid, th: Thread)
    requires Shape(m.width, th) && SizeLocal(m, th) && Hand(m, t, th) && ChainLocal(m, th)
    requires th.pc.Chain? && th.hand != []
    ensures var r := BuildStep(m, t, th); Local(r.m, t, r.th)
  {
    ChainStepHand(m, t, th);
    ChainStepLinks(m, t, th);
  }

  lemma ChainStepLinks(m: Memory, t: Tid, th: Thread)
    requires Hand(m, t, th) && ChainLocal(m, th) && th.op.PushOp? && th.pc.Chain? && th.hand != []
    ensures var r := BuildStep(m, t, th); ChainLocal(r.m, r.th)
  {
    var r := BuildStep(m, t, th);
    var n := |th.hand|;
    assert n >= 2 ==> HandAt(m, t, th, n - 2);
    forall j | 0 <= j < n
      ensures ChainAt(r.m, r.th, j)
    {
      assert ChainAt(m, th, j) && HandAt(m, t, th, j);
    }
  }

  lemma TakeTagShared(m: Memory, t: Tid, th: Thread)
    requires Good(m, t, th) && th.pc.TakeTag? && th.hand != []
    ensures var m' := BuildStep(m, t, th).m; Shared(m') && m.counter !in m.tags
    ensures forall n :: n in m.next ==> m.next[n] != m.counter
  {
    var m' := BuildStep(m, t, th).m;
    assert m.counter !in m.tags;
    forall n | n in m.next
      ensures m.next[n] != m.counter
    {
      if !IsNodePtr(m.next[n]) {
        assert m.next[n] in m.tags;
      }
    }
    forall i | m'.head.ver <= i < |m'.hist|
      ensures LiveAt(m', i)
    {
      assert LiveAt(m, i);
    }
    forall n | IsLive(m', n)
      ensures m'.head.ver <= m'.own[n].pos < |m'.hist| && m'.hist[m'.own[n].pos] == n
    {
      assert IsLive(m, n);
    }
    assert Tags(m');
  }

  lemma KeepTakeTag(m: Memory, t: Tid, th: Thread)
    requires Good(m, t, th) && th.pc.TakeTag? && th.hand != []
    ensures Kept(m, t, BuildStep(m, t, th))
  {
    TakeTagShared(m, t, th);
    TakeTagLocal(m, t, th);
    TakeTagOthers(m, t, th);
  }

  lemma TakeTagLocal(m: Memory, t: Tid, th: Thread)
    requires Shape(m.width, th) && SizeLocal(m, th) && Hand(m, t, th) && ChainLocal(m, th)
    requires th.pc.TakeTag? && th.hand != []
    requires forall n :: n in m.next ==> m.next[n] != m.counter
    ensures var r := BuildStep(m, t, th); Local(r.m, t, r.th)
  {
    var r := BuildStep(m, t, th);
    forall k | 0 <= k < |th.hand|
      ensures HandAt(r.m, t, r.th, k) && ChainAt(r.m, r.th, k)
    {
      assert HandAt(m, t, th, k) && ChainAt(m, th, k);
    }
    forall n | HeldBy(r.m, n, t)
      ensures r.m.own[n].idx < |th.hand| && th.hand[r.m.own[n].idx] == n
    {
      assert HeldBy(m, n, t);
    }
  }

  lemma TakeTagOthers(m: Memory, t: Tid, th: Thread)
    requires Positions(m) && Nodes(m) && th.pc.TakeTag? && th.hand != [] && m.counter !in m.tags
    ensures Others(m, BuildStep(m, t, th).m, t)
  {
    var m' := BuildStep(m, t, th).m;
    forall u | u != t
      ensures Rely(m, m', u)
    {
      assert RelyNodes(m, m', u);
    }
  }

  lemma KeepWriteTag(m: Memory, t: Tid, th: Thread)
    requires Good(m, t, th) && th.pc.WriteTag? && th.hand != []
    ensures Kept(m, t, Pair(m.(next := m.next[th.hand[|th.hand| - 1] := th.tag]), th.(pc := TReadPtr)))
  {
    assert HandAt(m, t, th, |th.hand| - 1);
    OwnWrite(m, t, th.hand[|th.hand| - 1], th.tag);
    WriteTagLocal(m, t, th);
  }

  lemma WriteTagLocal(m: Memory, t: Tid, th: Thread)
    requires Shape(m.width, th) && SizeLocal(m, th) && Hand(m, t, th) && ChainLocal(m, th) && TagLocal(m, t, th)
    requires th.pc.WriteTag? && th.hand != []
    ensures Local(m.(next := m.next[th.hand[|th.hand| - 1] := th.tag]), t, th.(pc := TReadPtr))
  {
    var m', th' := m.(next := m.next[th.hand[|th.hand| - 1] := th.tag]), th.(pc := TReadPtr);
    HandAfterWrite(m, t, th, |th.hand| - 1, th.tag, th');
    forall k | 0 <= k < |th.hand|
      ensures ChainAt(m', th', k)
    {
      assert ChainAt(m, th, k) && HandAt(m, t, th, k);
    }
    assert TagLocal(m', t, th');
  }

  // ----- recycling

  lemma KeepRelink(m: Memory, t: Tid, th: Thread, w: Word)
    requires Good(m, t, th) && Enabled(m, th, Relink(w))
    ensures Kept(m, t, RelinkNode(m, th, w))
  {
    HandAfterWrite(m, t, th, 0, w, th);
    OwnWrite(m, t, th.hand[0], w);
  }

  lemma ReleaseShared(m: Memory, t: Tid, th: Thread)
    requires Good(m, t, th) && Enabled(m, th, Release)
    ensures Shared(ReleaseNode(m, th).m)
  {
    assert HandAt(m, t, th, 0);
    var m' := ReleaseNode(m, th).m;
    assert Positions(m') && Nodes(m');
    LiveUntouched(m, m', th.hand[0]);
    assert Tags(m');
  }

  lemma KeepRelease(m: Memory, t: Tid, th: Thread)
    requires Good(m, t, th) && Enabled(m, th, Release)
    ensures Kept(m, t, ReleaseNode(m, th))
  {
    ReleaseShared(m, t, th);
    ReleaseLocal(m, t, th);
    ReleaseOthers(m, t, th);
  }

  lemma ReleaseLocal(m: Memory, t: Tid, th: Thread)
    requires Shape(m.width, th) && SizeLocal(m, th) && Hand(m, t, th) && Enabled(m, th, Release)
    ensures var r := ReleaseNode(m, th); Local(r.m, t, r.th)
  {
    var r := ReleaseNode(m, th);
    assert HandAt(m, t, th, 0);
    forall n | HeldBy(r.m, n, t)
      ensures false
    {
      assert HeldBy(m, n, t);
    }
  }

  lemma ReleaseOthers(m: Memory, t: Tid, th: Thread)
    requires Nodes(m) && Hand(m, t, th) && Enabled(m, th, Release)
    ensures Others(m, ReleaseNode(m, th).m, t)
  {
    var m' := ReleaseNode(m, th).m;
    assert HandAt(m, t, th, 0);
    forall u | u != t
      ensures Rely(m, m', u)
    {
      forall n | HeldBy(m', n, u)
        ensures HeldBy(m, n, u)
      {
      }
      assert RelyNodes(m, m', u);
    }
  }

  // ----- all steps, all runs

  lemma KeepStart(m: Memory, t: Tid, th: Thread, th': Thread)
    requires Good(m, t, th) && th.hand == [] && th'.hand == []
    requires th' == Resting || (OpOk(m.width, th'.op) && th' == Begin(th'.op, |m.hist| - 1))
    ensures Kept(m, t, Pair(m, th'))
  {
    SameMemory(m, t);
    EmptyHand(m, t, th, m, th');
  }

  lemma ApplyKeeps(m: Memory, t: Tid, th: Thread, c: Choice)
    requires Good(m, t, th) && Enabled(m, th, c)
    ensures Kept(m, t, Apply(m, t, th, c))
  {
    match c {
      case Start(op) => KeepStart(m, t, th, Begin(op, |m.hist| - 1));
      case Return => KeepStart(m, t, th, Resting);
      case Use(p) => KeepCreate(m, t, th, p);
      case Relink(w) => KeepRelink(m, t, th, w);
      case Release => KeepRelease(m, t, th);
      case Go => GoKeeps(m, t, th);
    }
  }

  lemma GoKeeps(m: Memory, t: Tid, th: Thread)
    requires Good(m, t, th) && Enabled(m, th, Go)
    ensures Kept(m, t, Apply(m, t, th, Go))
  {
    if BuildPc(th.pc) {
      BuildKeeps(m, t, th);
    } else if TailPc(th.pc) {
      TailKeeps(m, t, th);
    } else {
      HeadKeeps(m, t, th);
    }
  }

  lemma BuildKeeps(m: Memory, t: Tid, th: Thread)
    requires Good(m, t, th) && BuildPc(th.pc) && th.hand != []
    ensures Kept(m, t, BuildStep(m, t, th))
  {
    match th.pc {
      case Chain => KeepChain(m, t, th);
      case TakeTag => KeepTakeTag(m, t, th);
      case WriteTag => KeepWriteTag(m, t, th);
    }
  }

  lemma TailKeeps(m: Memory, t: Tid, th: Thread)
    requires Good(m, t, th) && TailPc(th.pc)
    ensures Kept(m, t, TailStep(m, t, th))
  {
    if th.pc.TAct? {
      KeepTailAct(m, t, th);
    } else if th.pc.SwingTail? {
      SwingStep(m, t, th);
      KeepSwingTail(m, t, th);
    } else if th.pc.SizeHead? || th.pc.SizeTail? {
      KeepSize(m, t, th);
    } else {
      KeepTailRead(m, t, th);
    }
  }

  lemma SwingStep(m: Memory, t: Tid, th: Thread)
    requires th.pc.SwingTail? && th.op.PushOp?
    ensures TailStep(m, t, th) ==
      Pair(CasTail(m, Wrap(th.tp, th.tv), Wrap(th.last, th.tv + |th.op.batch|)), th.(pc := Done))
  {
  }

  lemma HeadKeeps(m: Memory, t: Tid, th: Thread)
    requires Good(m, t, th) && HeadPc(th.pc)
    ensures Kept(m, t, HeadStep(m, t, th))
  {
    if th.pc.HAct? || th.pc.HCas? {
      KeepHeadAct(m, t, th, HeadStep(m, t, th));
    } else {
      KeepHeadRead(m, t, th);
    }
  }

  lemma StepKeeps(s: State, s': State, t: Tid, c: Choice)
    requires Inv(s) && Step(s, s', t, c)
    ensures Inv(s')
  {
    ApplyKeeps(s.mem, t, s.threads[t], c);
    KeptIsEnough(s, t, Apply(s.mem, t, s.threads[t], c));
  }

  lemma InitHolds(s: State)
    requires Init(s)
    ensures Inv(s)
  {
    var p: Word, dummy: Item, k: Word :| FreshMemory(s.mem, p, dummy, k);
    FreshMemoryShared(s.mem, p, dummy, k);
    forall t | t in s.threads
      ensures Local(s.mem, t, s.threads[t])
    {
    }
  }

  lemma FreshMemoryShared(m: Memory, p: Word, dummy: Item, k: Word)
    requires FreshMemory(m, p, dummy, k)
    ensures Shared(m)
  {
    assert LiveAt(m, 0);
  }
}
