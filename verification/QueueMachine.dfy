/**
 The lock-free queue of the wbl library as a step machine.

 Any number of threads share a versioned head, a versioned tail, the link word of every
 node, the item bytes of every node and the counter that hands out odd "null" tags.
 One step of the machine is at most one access to that shared memory: one read, one write,
 one fetch-and-add or one compare-and-swap. Everything else a step does is local to its thread.
 Versions, tags and addresses are unbounded naturals.
 */
module QueueMachine {

  /** A machine word that holds a node address (even), the null pointer (0) or a null tag (odd). */
  type Word = nat
  type Tid = nat

  /** The bytes of one queue element; all elements of a queue have the same size. */
  type Item = seq<int>

  /** The odd-tag scheme: a word is taken for a pointer exactly when its low bit is clear. */
  predicate IsNodePtr(w: Word) {
    w % 2 == 0
  }

  /** A pointer with its version: the unit of the double-width compare-and-swap. */
  datatype Wrap = Wrap(ptr: Word, ver: nat)

  datatype Op =
    | PushOp(batch: seq<Item>) // push (one item) and push_all (any positive number)
    | PopOp(copy: bool)        // pop(p, len) when copy is set, otherwise the pop() of clear
    | PeekOp
    | SizeOp

  datatype Result =
    | Pending
    | Pushed
    | Popped(v: Item)
    | Dropped
    | Empty
    | Peeked(v: Item)
    | Size(n: int)

  datatype Pc =
    | Idle
    // push and push_all: build the private chain, stamp its end with a fresh tag
    | Create | Chain | TakeTag | WriteTag
    // the loop around tail, shared by push, push_all and size
    | TReadPtr | TReadVer | TReadNext | TCheckPtr | TCheckVer | TAct
    | SwingTail
    // the two unsynchronized version reads of size
    | SizeHead | SizeTail
    // the loop around head, shared by both pops and peek
    | HReadPtr | HReadVer | HReadTailPtr | HReadTailVer | HReadNext | HCheckPtr | HCheckVer | HAct
    | HCopy | HCas
    // destroy_node on the node that a pop returned
    | Recycle
    | Done

  /** Program counter and local variables of one thread. */
  datatype Thread = Thread(
    pc: Pc,
    op: Op,
    hp: Word, hv: nat,     // local h
    tp: Word, tv: nat,     // local t
    nx: Word,              // local first or s: the link word that was read
    buf: Item,             // bytes copied so far
    hand: seq<Word>,       // nodes only this thread may write: its chain, or the node it popped
    last: Word,            // last node of the chain it linked
    tag: Word,             // the null tag it drew
    res: Result,
    snap: nat,             // size's copy of the head version
    sawEmpty: bool,        // history: the queue was empty at some step of this operation
    base: int)             // history: how many items had ever been linked when the operation began

  /** Where a node is. The position in a chain or in the link history comes with it. */
  datatype Owner = Free | Live(pos: nat) | Held(tid: Tid, idx: nat)

  /** Who may use a null tag: the thread that drew it, or, once linked, the queue. */
  datatype TagUse = Mine(tid: Tid) | Linked

  /** Everything the threads share. */
  datatype Memory = Memory(
    head: Wrap,
    tail: Wrap,
    next: map<Word, Word>,
    item: map<Word, Item>,
    counter: Word,
    width: nat,
    // history variables: no step below reads them to decide what to do
    hist: seq<Word>,           // every node ever linked, in link order
    vals: seq<Item>,           // the item it was linked with
    own: map<Word, Owner>,
    tags: map<Word, TagUse>)

  datatype State = State(mem: Memory, threads: map<Tid, Thread>)

  /** The memory and the one thread that a step may change. */
  datatype Pair = Pair(m: Memory, th: Thread)

  function LinkOf(m: Memory, p: Word): Word {
    if p in m.next then m.next[p] else 0
  }

  function ByteOf(m: Memory, p: Word, i: nat): int {
    if p in m.item && i < |m.item[p]| then m.item[p][i] else 0
  }

  predicate OpOk(width: nat, op: Op) {
    op.PushOp? ==> |op.batch| > 0 && forall k :: 0 <= k < |op.batch| ==> |op.batch[k]| == width
  }

  function FirstPc(op: Op): Pc {
    match op
    case PushOp(_) => Create
    case PopOp(_) => HReadPtr
    case PeekOp => HReadPtr
    case SizeOp => TReadPtr
  }

  function Begin(op: Op, base: int): Thread {
    Thread(FirstPc(op), op, 0, 0, 0, 0, 0, [], [], 0, 0, Pending, 0, false, base)
  }

  const Resting: Thread := Begin(PeekOp, 0).(pc := Idle)

  // ----- the atomic primitives

  /** compare_and_swap on the tail pair. */
  function CasTail(m: Memory, was: Wrap, now: Wrap): Memory {
    if m.tail == was then m.(tail := now) else m
  }

  /** The successful compare-and-swap of a link word: the chain joins the history. */
  function LinkChain(m: Memory, t: Tid, th: Thread): Pair
    requires th.op.PushOp? && th.hand != []
  {
    var base := |m.hist|;
    Pair(m.(
      next := m.next[th.tp := th.hand[0]],
      hist := m.hist + th.hand,
      vals := m.vals + th.op.batch,
      own := map n | n in m.own ::
        if m.own[n].Held? && m.own[n].tid == t then Live(base + m.own[n].idx) else m.own[n],
      tags := m.tags[th.tag := Linked]),
      th.(pc := SwingTail, res := Pushed, hand := [], last := th.hand[|th.hand| - 1]))
  }

  /** The successful head compare-and-swap of a pop: the old dummy becomes private to the thread. */
  function TakeHead(m: Memory, t: Tid, th: Thread): Pair {
    Pair(m.(head := Wrap(th.nx, th.hv + 1), own := m.own[th.hp := Held(t, 0)]),
         th.(pc := Recycle, hand := [th.hp],
             res := if th.op == PopOp(true) then Popped(th.buf) else Dropped))
  }

  // ----- the deterministic steps of a running operation

  predicate BuildPc(pc: Pc) { pc.Chain? || pc.TakeTag? || pc.WriteTag? }

  predicate TailPc(pc: Pc) {
    || pc.TReadPtr? || pc.TReadVer? || pc.TReadNext? || pc.TCheckPtr? || pc.TCheckVer? || pc.TAct?
    || pc.SwingTail? || pc.SizeHead? || pc.SizeTail?
  }

  predicate HeadPc(pc: Pc) {
    || pc.HReadPtr? || pc.HReadVer? || pc.HReadTailPtr? || pc.HReadTailVer? || pc.HReadNext?
    || pc.HCheckPtr? || pc.HCheckVer? || pc.HAct? || pc.HCopy? || pc.HCas?
  }

  function AfterChain(th: Thread): Pc {
    if th.op.PushOp? && |th.hand| < |th.op.batch| then Create else TakeTag
  }

  function BuildStep(m: Memory, t: Tid, th: Thread): Pair
    requires th.hand != []
  {
    var n := |th.hand|;
    match th.pc
    case Chain =>
      Pair(if n >= 2 then m.(next := m.next[th.hand[n - 2] := th.hand[n - 1]]) else m,
           th.(pc := AfterChain(th)))
    case TakeTag =>
      Pair(m.(counter := m.counter + 2, tags := m.tags[m.counter := Mine(t)]),
           th.(pc := WriteTag, tag := m.counter))
    case WriteTag => Pair(m.(next := m.next[th.hand[n - 1] := th.tag]), th.(pc := TReadPtr))
    case _ => Pair(m, th)
  }

  function TailStep(m: Memory, t: Tid, th: Thread): Pair {
    match th.pc
    case TReadPtr => Pair(m, th.(pc := TReadVer, tp := m.tail.ptr))
    case TReadVer => Pair(m, th.(pc := TReadNext, tv := m.tail.ver))
    case TReadNext => Pair(m, th.(pc := TCheckPtr, nx := LinkOf(m, th.tp)))
    case TCheckPtr => Pair(m, th.(pc := if m.tail.ptr == th.tp then TCheckVer else TReadPtr))
    case TCheckVer => Pair(m, th.(pc := if m.tail.ver == th.tv then TAct else TReadPtr))
    case TAct =>
      if IsNodePtr(th.nx) then
        Pair(CasTail(m, Wrap(th.tp, th.tv), Wrap(th.nx, th.tv + 1)), th.(pc := TReadPtr))
      else if !th.op.PushOp? || th.hand == [] then Pair(m, th.(pc := SizeHead))
      else if LinkOf(m, th.tp) == th.nx then LinkChain(m, t, th)
      else Pair(m, th.(pc := TReadPtr))
    case SwingTail =>
      var count := if th.op.PushOp? then |th.op.batch| else 0;
      Pair(CasTail(m, Wrap(th.tp, th.tv), Wrap(th.last, th.tv + count)), th.(pc := Done))
    case SizeHead => Pair(m, th.(pc := SizeTail, snap := m.head.ver))
    case SizeTail => Pair(m, th.(pc := Done, res := Size(m.tail.ver - th.snap)))
    case _ => Pair(m, th)
  }

  function HeadStep(m: Memory, t: Tid, th: Thread): Pair {
    match th.pc
    case HReadPtr => Pair(m, th.(pc := HReadVer, hp := m.head.ptr))
    case HReadVer => Pair(m, th.(pc := HReadTailPtr, hv := m.head.ver))
    case HReadTailPtr => Pair(m, th.(pc := HReadTailVer, tp := m.tail.ptr))
    case HReadTailVer => Pair(m, th.(pc := HReadNext, tv := m.tail.ver))
    case HReadNext =>
      Pair(m, th.(pc := HCheckPtr, nx := LinkOf(m, th.hp),
                  sawEmpty := th.sawEmpty || m.head.ver + 1 == |m.hist|))
    case HCheckPtr => Pair(m, th.(pc := if m.head.ptr == th.hp then HCheckVer else HReadPtr))
    case HCheckVer => Pair(m, th.(pc := if m.head.ver == th.hv then HAct else HReadPtr))
    case HAct =>
      if th.hp == th.tp then
        if !IsNodePtr(th.nx) then Pair(m, th.(pc := Done, res := Empty))
        else Pair(CasTail(m, Wrap(th.tp, th.tv), Wrap(th.nx, th.tv + 1)), th.(pc := HReadPtr))
      else if th.op == PopOp(false) then
        if m.head == Wrap(th.hp, th.hv) then TakeHead(m, t, th) else Pair(m, th.(pc := HReadPtr))
      else if IsNodePtr(th.nx) then Pair(m, th.(pc := HCopy, buf := []))
      else Pair(m, th.(pc := HReadPtr))
    case HCopy =>
      if |th.buf| < m.width then Pair(m, th.(buf := th.buf + [ByteOf(m, th.nx, |th.buf|)]))
      else Pair(m, th.(pc := HCas))
    case HCas =>
      if m.head != Wrap(th.hp, th.hv) then Pair(m, th.(pc := HReadPtr))
      else if th.op.PeekOp? then Pair(m, th.(pc := Done, res := Peeked(th.buf)))
      else TakeHead(m, t, th)
    case _ => Pair(m, th)
  }

  // ----- the steps with a choice

  /** create_node: take p from the free stack, or from the allocator, and fill it in. */
  function CreateNode(m: Memory, t: Tid, th: Thread, p: Word): Pair
    requires th.op.PushOp? && |th.hand| < |th.op.batch|
  {
    Pair(m.(next := m.next[p := 0], item := m.item[p := th.op.batch[|th.hand|]], own := m.own[p := Held(t, |th.hand|)]),
         th.(pc := Chain, hand := th.hand + [p]))
  }

  /** destroy_node, part one: the free stack's push writes w into the popped node's link word. */
  function RelinkNode(m: Memory, th: Thread, w: Word): Pair
    requires th.hand != []
  {
    Pair(m.(next := m.next[th.hand[0] := w]), th)
  }

  /** destroy_node, part two: the node is on the free stack. */
  function ReleaseNode(m: Memory, th: Thread): Pair
    requires th.hand != []
  {
    Pair(m.(own := m.own[th.hand[0] := Free]), th.(pc := Done, hand := []))
  }

  datatype Choice =
    | Go                 // the deterministic step
    | Start(op: Op)
    | Use(p: Word)       // create_node gets node p
    | Relink(w: Word)
    | Release
    | Return

  predicate Enabled(m: Memory, th: Thread, c: Choice) {
    match c
    case Go => (BuildPc(th.pc) && th.hand != []) || TailPc(th.pc) || HeadPc(th.pc)
    case Start(op) => th.pc.Idle? && OpOk(m.width, op)
    case Use(p) => th.pc.Create? && th.op.PushOp? && |th.hand| < |th.op.batch|
      && (if p in m.own then m.own[p].Free? else IsNodePtr(p) && p != 0)
    case Relink(w) => th.pc.Recycle? && |th.hand| == 1 && IsNodePtr(w)
    case Release => th.pc.Recycle? && |th.hand| == 1
    case Return => th.pc.Done?
  }

  function Apply(m: Memory, t: Tid, th: Thread, c: Choice): Pair
    requires Enabled(m, th, c)
  {
    match c
    case Go =>
      if BuildPc(th.pc) then BuildStep(m, t, th)
      else if TailPc(th.pc) then TailStep(m, t, th)
      else HeadStep(m, t, th)
    case Start(op) => Pair(m, Begin(op, |m.hist| - 1))
    case Use(p) => CreateNode(m, t, th, p)
    case Relink(w) => RelinkNode(m, th, w)
    case Release => ReleaseNode(m, th)
    case Return => Pair(m, Resting)
  }

  predicate Step(s: State, s': State, t: Tid, c: Choice) {
    && t in s.threads
    && Enabled(s.mem, s.threads[t], c)
    && var r := Apply(s.mem, t, s.threads[t], c);
    s' == State(r.m, s.threads[t := r.th])
  }

  /** node_list::init on one fresh node and the next unused tag, with every thread idle. */
  ghost predicate Init(s: State) {
    && (exists p: Word, dummy: Item, k: Word :: FreshMemory(s.mem, p, dummy, k))
    && forall t :: t in s.threads ==> s.threads[t] == Resting
  }

  predicate FreshMemory(m: Memory, p: Word, dummy: Item, k: Word) {
    && IsNodePtr(p) && p != 0 && !IsNodePtr(k)
    && |dummy| == m.width
    && m.head == Wrap(p, 0) && m.tail == Wrap(p, 0)
    && m.next == map[p := k] && m.item == map[p := dummy]
    && m.counter == k + 2
    && m.hist == [p] && m.vals == [dummy]
    && m.own == map[p := Live(0)]
    && m.tags == map[k := Linked]
  }
}
