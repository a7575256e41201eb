/**
 What every step of the queue machine keeps.

 Shared(m) speaks of the shared memory, Local(m, t, th) of one thread. A step of thread t keeps
 Shared and its own Local, and every other thread u sees only the changes that Rely(m, m', u) lists;
 Local(_, u, _) is stable under Rely. So the conjunction, Inv, holds in every reachable state.
 */
module QueueInvariant {
  import opened QueueMachine

  // ----- shared memory

  ghost predicate Positions(m: Memory) {
    && |m.hist| == |m.vals|
    && m.head.ver <= m.tail.ver < |m.hist|
    && m.hist[m.head.ver] == m.head.ptr
    && m.hist[m.tail.ver] == m.tail.ptr
    && (forall i :: 0 <= i < |m.vals| ==> |m.vals[i]| == m.width)
  }

  ghost predicate Nodes(m: Memory) {
    && m.next.Keys == m.own.Keys
    && m.item.Keys == m.own.Keys
    && (forall n :: n in m.own ==> IsNodePtr(n) && n != 0)
    && (forall i :: 0 <= i < |m.hist| ==> m.hist[i] in m.own)
  }

  /** The node at position i is live, carries its item, and links to its successor. */
  ghost predicate LiveAt(m: Memory, i: int)
    requires 0 <= i < |m.hist| == |m.vals| && Nodes(m)
  {
    && m.own[m.hist[i]] == Live(i)
    && m.item[m.hist[i]] == m.vals[i]
    && (i + 1 < |m.hist| ==> m.next[m.hist[i]] == m.hist[i + 1])
  }

  /** The nodes from head on form one chain, in link order, with the items they were linked with. */
  ghost predicate LiveChain(m: Memory)
    requires Positions(m) && Nodes(m)
  {
    forall i {:trigger LiveAt(m, i)} :: m.head.ver <= i < |m.hist| ==> LiveAt(m, i)
  }

  ghost predicate IsLive(m: Memory, n: Word) {
    n in m.own && m.own[n].Live?
  }

  /** Every node marked live is on that chain. */
  ghost predicate LiveOnly(m: Memory)
    requires Positions(m)
  {
    forall n {:trigger IsLive(m, n)} :: IsLive(m, n) ==>
      m.head.ver <= m.own[n].pos < |m.hist| && m.hist[m.own[n].pos] == n
  }

  ghost function LastNode(m: Memory): Word
    requires m.hist != []
  {
    m.hist[|m.hist| - 1]
  }

  /** Null tags are odd, drawn at most once, and a linked one sits in the last live node only. */
  ghost predicate Tags(m: Memory)
    requires Positions(m) && Nodes(m)
  {
    && !IsNodePtr(m.counter)
    && (forall k :: k in m.tags ==> !IsNodePtr(k) && k < m.counter)
    && LinkedTag(m, m.next[LastNode(m)])
    && (forall n :: n in m.next && !IsNodePtr(m.next[n]) ==> m.next[n] in m.tags)
    && (forall n :: n in m.next && LinkedTag(m, m.next[n]) ==> n == LastNode(m))
  }

  ghost predicate LinkedTag(m: Memory, w: Word) {
    w in m.tags && m.tags[w] == Linked
  }

  ghost predicate Shared(m: Memory) {
    Positions(m) && Nodes(m) && LiveChain(m) && LiveOnly(m) && Tags(m)
  }

  // ----- one thread

  ghost predicate HeadIs(m: Memory, th: Thread) {
    m.head == Wrap(th.hp, th.hv)
  }

  ghost predicate TailIs(m: Memory, th: Thread) {
    m.tail == Wrap(th.tp, th.tv)
  }

  ghost predicate NodeAt(m: Memory, i: nat, n: Word) {
    i < |m.hist| && m.hist[i] == n
  }

  /** What the word read from h.ptr->next is worth if head was h at that moment. */
  ghost predicate FirstFacts(m: Memory, th: Thread) {
    if IsNodePtr(th.nx) then NodeAt(m, th.hv + 1, th.nx) else th.sawEmpty
  }

  /** What the word read from t.ptr->next is worth if tail was t at that moment. */
  ghost predicate NextFacts(m: Memory, th: Thread) {
    if IsNodePtr(th.nx) then NodeAt(m, th.tv + 1, th.nx) else LinkedTag(m, th.nx)
  }

  /** How far a thread is in the loop around head. */
  ghost function HeadRank(pc: Pc): int {
    match pc
    case HReadVer => 1
    case HReadTailPtr => 2
    case HReadTailVer => 3
    case HReadNext => 4
    case HCheckPtr => 5
    case HCheckVer => 6
    case HAct => 7
    case HCopy => 8
    case HCas => 9
    case _ => 0
  }

  ghost predicate HeadLocal(m: Memory, th: Thread) {
    var r := HeadRank(th.pc);
    && (r >= 1 ==> th.hp in m.own)
    && (r >= 2 ==> th.hv <= m.head.ver)
    && (r >= 3 ==> th.tp in m.own && (HeadIs(m, th) && th.tp != th.hp ==> m.head.ver < m.tail.ver))
    && (r >= 4 ==> th.tv <= m.tail.ver)
    && (r >= 5 ==>
          && (HeadIs(m, th) ==> FirstFacts(m, th))
          && (HeadIs(m, th) && th.tp != th.hp ==> IsNodePtr(th.nx))
          && (TailIs(m, th) && th.tp == th.hp && IsNodePtr(th.nx) ==> NodeAt(m, th.tv + 1, th.nx)))
    && (r >= 6 ==> (m.head.ver == th.hv ==> m.head.ptr == th.hp))
    && (r >= 7 ==> FirstFacts(m, th))
    && (r >= 8 ==>
          && IsNodePtr(th.nx) && th.tp != th.hp && th.op != PopOp(false)
          && |th.buf| <= m.width
          && (HeadIs(m, th) ==> th.hv + 1 < |m.vals| && th.buf <= m.vals[th.hv + 1]))
    && (r >= 9 ==> |th.buf| == m.width)
  }

  ghost function TailRank(pc: Pc): int {
    match pc
    case TReadVer => 1
    case TReadNext => 2
    case TCheckPtr => 3
    case TCheckVer => 4
    case TAct => 5
    case _ => 0
  }

  ghost predicate TailLocal(m: Memory, th: Thread) {
    var r := TailRank(th.pc);
    && (r >= 1 ==> th.tp in m.own)
    && (r >= 2 ==> th.tv <= m.tail.ver)
    && (r >= 3 ==> (TailIs(m, th) ==> NextFacts(m, th)))
    && (r >= 4 ==> (m.tail.ver == th.tv ==> m.tail.ptr == th.tp))
    && (r >= 5 ==> NextFacts(m, th))
    && (th.pc.SwingTail? ==>
          && th.op.PushOp? && th.tv <= m.tail.ver && th.last != th.tp
          && (TailIs(m, th) ==> NodeAt(m, th.tv + |th.op.batch|, th.last)))
    && (th.pc.SizeTail? ==> th.snap <= m.head.ver)
  }

  /** Once it has seen a null tag behind a current tail, size knows that all items of its beginning are linked. */
  ghost predicate SizeLocal(m: Memory, th: Thread) {
    var r := TailRank(th.pc);
    && (!th.pc.Idle? ==> th.base < |m.hist|)
    && (r >= 3 && TailIs(m, th) && !IsNodePtr(th.nx) ==> th.base <= th.tv)
    && (r >= 5 && !IsNodePtr(th.nx) ==> th.base <= th.tv)
    && (th.pc.SizeHead? || th.pc.SizeTail? ==> th.base <= m.tail.ver)
  }

  ghost predicate PushPc(pc: Pc) {
    pc.Create? || BuildPc(pc)
  }

  /** Which operations a program counter belongs to, and what the thread then holds. */
  ghost predicate Shape(width: nat, th: Thread) {
    && OpOk(width, th.op)
    && (HeadPc(th.pc) ==> (th.op.PopOp? || th.op.PeekOp?) && th.hand == [] && th.res == Pending)
    && (PushPc(th.pc) ==> th.op.PushOp? && th.res == Pending)
    && (TailPc(th.pc) ==> (th.op.PushOp? || th.op.SizeOp?))
    && (TailPc(th.pc) && !th.pc.SwingTail? ==> th.res == Pending)
    && (th.pc.SizeHead? || th.pc.SizeTail? ==> th.op.SizeOp?)
    && (TailPc(th.pc) && th.op.SizeOp? ==> th.hand == [])
    && (th.pc.SwingTail? ==> th.hand == [] && th.res == Pushed && th.op.PushOp?)
    && (th.pc.Recycle? ==> |th.hand| == 1 && th.op.PopOp? && (th.res.Popped? || th.res.Dropped?))
    && (th.pc.Idle? || th.pc.Done? ==> th.hand == [])
    && (th.pc.Done? ==> th.res != Pending)
    && (th.pc.Idle? ==> th.res == Pending)
  }

  ghost predicate HeldBy(m: Memory, n: Word, u: Tid) {
    n in m.own && m.own[n].Held? && m.own[n].tid == u
  }

  ghost predicate HandAt(m: Memory, t: Tid, th: Thread, k: int)
    requires 0 <= k < |th.hand|
  {
    th.hand[k] in m.own && m.own[th.hand[k]] == Held(t, k)
  }

  /** The thread's nodes, seen from the thread and from the nodes. */
  ghost predicate Hand(m: Memory, t: Tid, th: Thread) {
    && (forall k {:trigger HandAt(m, t, th, k)} :: 0 <= k < |th.hand| ==> HandAt(m, t, th, k))
    && (forall n {:trigger HeldBy(m, n, t)} :: HeldBy(m, n, t) ==>
          m.own[n].idx < |th.hand| && th.hand[m.own[n].idx] == n)
  }

  ghost predicate HoldsChain(th: Thread) {
    th.op.PushOp? && (PushPc(th.pc) || (TailPc(th.pc) && !th.pc.SwingTail?))
  }

  ghost predicate ChainAt(m: Memory, th: Thread, k: int)
    requires th.op.PushOp? && 0 <= k < |th.hand| <= |th.op.batch|
  {
    && th.hand[k] in m.item && m.item[th.hand[k]] == th.op.batch[k]
    && (k < LinksMade(th) ==> th.hand[k] in m.next && m.next[th.hand[k]] == th.hand[k + 1])
  }

  /** A pusher's private chain: its nodes, their items and the links between them. */
  ghost predicate ChainLocal(m: Memory, th: Thread) {
    HoldsChain(th) ==>
      && |th.hand| <= |th.op.batch|
      && (forall k {:trigger ChainAt(m, th, k)} :: 0 <= k < |th.hand| ==> ChainAt(m, th, k))
      && (th.pc.Create? ==> |th.hand| < |th.op.batch|)
      && (th.pc.Chain? ==> th.hand != [])
      && (!th.pc.Create? && !th.pc.Chain? ==> |th.hand| == |th.op.batch|)
  }

  ghost function LinksMade(th: Thread): int {
    if th.pc.Chain? then |th.hand| - 2 else |th.hand| - 1
  }

  ghost predicate HoldsTag(th: Thread) {
    th.op.PushOp? && (th.pc.WriteTag? || (TailPc(th.pc) && !th.pc.SwingTail?))
  }

  /** The tag a pusher drew: its own, and in no link word but that of its last node. */
  ghost predicate TagLocal(m: Memory, t: Tid, th: Thread) {
    HoldsTag(th) ==>
      && th.hand != []
      && th.tag in m.tags && m.tags[th.tag] == Mine(t)
      && (forall n :: n in m.next && m.next[n] == th.tag ==> n == th.hand[|th.hand| - 1])
      && (!th.pc.WriteTag? ==> LinkOf(m, th.hand[|th.hand| - 1]) == th.tag)
  }

  ghost predicate Local(m: Memory, t: Tid, th: Thread) {
    && Shape(m.width, th) && HeadLocal(m, th) && TailLocal(m, th) && SizeLocal(m, th)
    && Hand(m, t, th) && ChainLocal(m, th) && TagLocal(m, t, th)
  }

  ghost predicate HoldersExist(s: State) {
    forall n :: n in s.mem.own && s.mem.own[n].Held? ==> s.mem.own[n].tid in s.threads
  }

  ghost predicate Inv(s: State) {
    && Shared(s.mem)
    && HoldersExist(s)
    && forall t :: t in s.threads ==> Local(s.mem, t, s.threads[t])
  }

  // ----- interference

  ghost predicate WrapGrows(w: Wrap, w': Wrap) {
    w.ver <= w'.ver && (w.ver == w'.ver ==> w == w')
  }

  /** All that thread u can notice of another thread's step. */
  ghost predicate Rely(m: Memory, m': Memory, u: Tid) {
    && m'.width == m.width
    && m.own.Keys <= m'.own.Keys
    && m.hist <= m'.hist && m.vals <= m'.vals
    && WrapGrows(m.head, m'.head) && WrapGrows(m.tail, m'.tail)
    && RelyTags(m, m', u)
    && RelyNodes(m, m', u)
  }

  ghost predicate RelyTags(m: Memory, m': Memory, u: Tid) {
    && (forall k :: k in m.tags && (m.tags[k] == Linked || m.tags[k] == Mine(u)) ==>
          k in m'.tags && m'.tags[k] == m.tags[k])
    && (forall n :: n in m'.next && m'.next[n] in m.tags && m.tags[m'.next[n]] == Mine(u) ==>
          n in m.next && m.next[n] == m'.next[n])
  }

  ghost predicate RelyNodes(m: Memory, m': Memory, u: Tid) {
    && (forall n {:trigger HeldBy(m, n, u)} :: HeldBy(m, n, u) ==>
          && n in m'.own && m'.own[n] == m.own[n]
          && n in m.next && n in m'.next && m'.next[n] == m.next[n]
          && n in m.item && n in m'.item && m'.item[n] == m.item[n])
    && (forall n {:trigger HeldBy(m', n, u)} :: HeldBy(m', n, u) ==> n in m.own && m'.own[n] == m.own[n])
  }

  lemma HeadLocalIsStable(m: Memory, m': Memory, u: Tid, th: Thread)
    requires Positions(m) && Positions(m') && Rely(m, m', u) && HeadLocal(m, th)
    ensures HeadLocal(m', th)
  {
    if HeadIs(m', th) && HeadRank(th.pc) >= 2 {
      assert HeadIs(m, th);
    }
    if TailIs(m', th) && HeadRank(th.pc) >= 4 {
      assert TailIs(m, th);
    }
  }

  lemma TailLocalIsStable(m: Memory, m': Memory, u: Tid, th: Thread)
    requires Positions(m) && Positions(m') && Rely(m, m', u) && TailLocal(m, th)
    ensures TailLocal(m', th)
  {
    if TailIs(m', th) && (TailRank(th.pc) >= 2 || th.pc.SwingTail?) {
      assert TailIs(m, th);
    }
  }

  lemma SizeLocalIsStable(m: Memory, m': Memory, u: Tid, th: Thread)
    requires Rely(m, m', u) && SizeLocal(m, th) && TailLocal(m, th)
    ensures SizeLocal(m', th)
  {
    if TailIs(m', th) && TailRank(th.pc) >= 2 {
      assert TailIs(m, th);
    }
  }

  lemma HandIsStable(m: Memory, m': Memory, u: Tid, th: Thread)
    requires RelyNodes(m, m', u) && Hand(m, u, th)
    ensures Hand(m', u, th)
    ensures forall k :: 0 <= k < |th.hand| ==> HeldBy(m, th.hand[k], u)
  {
    forall k | 0 <= k < |th.hand|
      ensures HandAt(m', u, th, k) && HeldBy(m, th.hand[k], u)
    {
      assert HandAt(m, u, th, k);
      assert HeldBy(m, th.hand[k], u);
    }
    forall n | HeldBy(m', n, u)
      ensures m'.own[n].idx < |th.hand| && th.hand[m'.own[n].idx] == n
    {
      assert HeldBy(m, n, u);
    }
  }

  lemma ChainIsStable(m: Memory, m': Memory, u: Tid, th: Thread)
    requires RelyNodes(m, m', u) && Hand(m, u, th) && ChainLocal(m, th)
    ensures ChainLocal(m', th)
  {
    if HoldsChain(th) {
      forall k | 0 <= k < |th.hand|
        ensures ChainAt(m', th, k)
      {
        assert HandAt(m, u, th, k) && ChainAt(m, th, k);
        assert HeldBy(m, th.hand[k], u);
      }
    }
  }

  lemma TagIsStable(m: Memory, m': Memory, u: Tid, th: Thread)
    requires RelyNodes(m, m', u) && RelyTags(m, m', u) && Hand(m, u, th) && TagLocal(m, u, th)
    ensures TagLocal(m', u, th)
  {
    if HoldsTag(th) {
      assert HandAt(m, u, th, |th.hand| - 1);
      assert HeldBy(m, th.hand[|th.hand| - 1], u);
    }
  }

  lemma LocalIsStable(m: Memory, m': Memory, u: Tid, th: Thread)
    requires Positions(m) && Positions(m') && Rely(m, m', u) && Local(m, u, th)
    ensures Local(m', u, th)
  {
    HeadLocalIsStable(m, m', u, th);
    TailLocalIsStable(m, m', u, th);
    SizeLocalIsStable(m, m', u, th);
    HandIsStable(m, m', u, th);
    ChainIsStable(m, m', u, th);
    TagIsStable(m, m', u, th);
  }

  ghost predicate Others(m: Memory, m': Memory, t: Tid) {
    forall u {:trigger Rely(m, m', u)} :: u != t ==> Rely(m, m', u)
  }

  /** The obligations of one step of thread t, from (m, th) to r. */
  ghost predicate Kept(m: Memory, t: Tid, r: Pair) {
    Shared(r.m) && Local(r.m, t, r.th) && Others(m, r.m, t)
  }

  lemma KeptIsEnough(s: State, t: Tid, r: Pair)
    requires Inv(s) && t in s.threads && Kept(s.mem, t, r)
    ensures Inv(State(r.m, s.threads[t := r.th]))
  {
    var s' := State(r.m, s.threads[t := r.th]);
    forall u | u in s'.threads
      ensures Local(s'.mem, u, s'.threads[u])
    {
      if u != t {
        LocalIsStable(s.mem, r.m, u, s.threads[u]);
      }
    }
    forall n | n in r.m.own && r.m.own[n].Held?
      ensures r.m.own[n].tid in s'.threads
    {
      var u := r.m.own[n].tid;
      if u != t {
        assert Rely(s.mem, r.m, u) && HeldBy(r.m, n, u);
      }
    }
  }
}
