/**
 The stack of free nodes, step by step: any number of threads push and pop, every read and every
 compare-and-swap of the shared top is one step. Node 0 is NULL.
 */
module NodeStack {

  /** The two words of the top; ver holds v in its low and count in its high 32 bits. */
  datatype Top = Top(ptr: nat, v: nat, count: nat)

  const WIDTH: nat := 0x1_0000_0000

  datatype Pc =
    | Idle
    | PushPtr(n: nat)                  // about to read _top.ptr
    | PushVer(n: nat, p: nat)          // about to read _top.ver
    | PushLink(n: nat, t: Top)         // about to write n->next
    | PushCas(n: nat, t: Top)
    | PopPtr
    | PopVer(p: nat)
    | PopNext(t: Top)                  // about to read t.ptr->next
    | PopCas(t: Top, n: nat, again: bool)  // again (history): t.ptr was pushed since its next was read

  /** Where a node is: on the stack, with whoever popped or allocated it, or on its way in. */
  datatype Place = OnStack | InHands | Entering(t: nat)

  datatype State = State(
    top: Top,
    next: map<nat, nat>,
    threads: seq<Pc>,
    place: map<nat, Place>,   // history
    stack: seq<nat>)          // history: what successful pushes and pops make of an abstract stack

  datatype Move =
    | Allocate(n: nat)             // a node the stack has never held
    | Write(n: nat, value: nat)    // its holder uses the node
    | BeginPush(t: nat, n: nat)
    | BeginPop(t: nat)
    | Go(t: nat)

  function NextOf(s: State, n: nat): nat {
    if n in s.next then s.next[n] else 0
  }

  function PlaceOf(s: State, n: nat): Place {
    if n in s.place then s.place[n] else InHands
  }

  function Add(t: Top, n: nat, c: int): Top {
    Top(n, t.v, (t.count + c) % WIDTH)
  }

  function Pushed(pc: Pc, n: nat): Pc {
    if pc.PopCas? && pc.t.ptr == n then pc.(again := true) else pc
  }

  function AllPushed(pcs: seq<Pc>, n: nat): (r: seq<Pc>)
    ensures |r| == |pcs| && forall i :: 0 <= i < |pcs| ==> r[i] == Pushed(pcs[i], n)
  {
    seq(|pcs|, i requires 0 <= i < |pcs| => Pushed(pcs[i], n))
  }

  predicate Enabled(s: State, m: Move) {
    match m
    case Allocate(n) => n != 0 && n !in s.place
    case Write(n, _) => n in s.place && s.place[n] == InHands
    case BeginPush(t, n) => t < |s.threads| && s.threads[t].Idle? && n in s.place && s.place[n] == InHands
    case BeginPop(t) => t < |s.threads| && s.threads[t].Idle?
    case Go(t) => t < |s.threads| && !s.threads[t].Idle?
  }

  function Set(s: State, t: nat, pc: Pc): State
    requires t < |s.threads|
  {
    s.(threads := s.threads[t := pc])
  }

  function Advance(s: State, t: nat): State
    requires t < |s.threads| && !s.threads[t].Idle?
  {
    match s.threads[t]
    case PushPtr(n) => Set(s, t, PushVer(n, s.top.ptr))
    case PushVer(n, p) => Set(s, t, PushLink(n, s.top.(ptr := p)))
    case PushLink(n, seen) => Set(s, t, PushCas(n, seen)).(next := s.next[n := seen.ptr])
    case PushCas(n, seen) =>
      if s.top == seen then
        s.(top := Add(seen, n, 1), threads := AllPushed(s.threads, n)[t := Idle],
           place := s.place[n := OnStack], stack := [n] + s.stack)
      else Set(s, t, PushPtr(n))
    case PopPtr => Set(s, t, PopVer(s.top.ptr))
    case PopVer(p) => Set(s, t, if p == 0 then Idle else PopNext(s.top.(ptr := p)))
    case PopNext(seen) => Set(s, t, PopCas(seen, NextOf(s, seen.ptr), false))
    case PopCas(seen, n, _) =>
      if s.top == seen then
        Set(s, t, Idle).(top := Add(seen, n, -1), place := s.place[seen.ptr := InHands],
                         stack := if s.stack == [] then [] else s.stack[1..])
      else Set(s, t, PopPtr)
  }

  function Apply(s: State, m: Move): State
    requires Enabled(s, m)
  {
    match m
    case Allocate(n) => s.(place := s.place[n := InHands])
    case Write(n, value) => s.(next := s.next[n := value])
    case BeginPush(t, n) => Set(s, t, PushPtr(n)).(place := s.place[n := Entering(t)])
    case BeginPop(t) => Set(s, t, PopPtr)
    case Go(t) => Advance(s, t)
  }

  predicate Step(s: State, s': State, m: Move) {
    Enabled(s, m) && s' == Apply(s, m)
  }

  /** The move completes a pop whose node came back to the stack after its next was read. */
  predicate Hazard(s: State, m: Move) {
    m.Go? && m.t < |s.threads| && s.threads[m.t].PopCas? && s.top == s.threads[m.t].t && s.threads[m.t].again
  }

  /** The move completes a pop although the next it read is no longer the top's. */
  predicate Stale(s: State, m: Move) {
    && m.Go? && m.t < |s.threads| && s.threads[m.t].PopCas? && s.top == s.threads[m.t].t
    && s.threads[m.t].n != NextOf(s, s.top.ptr)
  }

  predicate Init(s: State) {
    && s.top == Top(0, 0, 0) && s.stack == [] && s.place == map[]
    && forall t :: 0 <= t < |s.threads| ==> s.threads[t].Idle?
  }

  // ----- the invariant

  function At(stack: seq<nat>, i: nat): nat {
    if i < |stack| then stack[i] else 0
  }

  ghost predicate Link(s: State, i: nat) {
    NextOf(s, At(s.stack, i)) == At(s.stack, i + 1)
  }

  /** From the top along the next fields lie exactly the nodes of the abstract stack. */
  ghost predicate Chained(s: State) {
    && s.top.ptr == At(s.stack, 0)
    && forall i: nat {:trigger Link(s, i)} :: i < |s.stack| ==> Link(s, i)
  }

  ghost predicate Distinct(stack: seq<nat>) {
    && (forall i :: 0 <= i < |stack| ==> stack[i] != 0)
    && (forall i, j :: 0 <= i < j < |stack| ==> stack[i] != stack[j])
  }

  /** Every allocated node is in one place: on the stack once, in hands, or entering through one thread. */
  ghost predicate Placed(s: State) {
    && (forall n :: n in s.place ==> n != 0)
    && (forall n {:trigger n in s.stack} :: n in s.stack <==> n in s.place && s.place[n] == OnStack)
  }

  ghost predicate Counted(s: State) {
    s.top.v == 0 && s.top.count == |s.stack| % WIDTH
  }

  ghost predicate ThreadOk(s: State, t: nat)
    requires t < |s.threads|
  {
    match s.threads[t]
    case Idle => true
    case PushPtr(n) => n in s.place && s.place[n] == Entering(t)
    case PushVer(n, _) => n in s.place && s.place[n] == Entering(t)
    case PushLink(n, _) => n in s.place && s.place[n] == Entering(t)
    case PushCas(n, seen) => n in s.place && s.place[n] == Entering(t) && NextOf(s, n) == seen.ptr
    case PopPtr => true
    case PopVer(p) => p == 0 || p in s.place
    case PopNext(seen) => seen.ptr in s.place
    case PopCas(seen, n, again) =>
      seen.ptr in s.place && (!again && s.place[seen.ptr] == OnStack ==> NextOf(s, seen.ptr) == n)
  }

  ghost predicate Inv(s: State) {
    && Chained(s) && Distinct(s.stack) && Placed(s) && Counted(s)
    && forall t {:trigger ThreadOk(s, t)} :: 0 <= t < |s.threads| ==> ThreadOk(s, t)
  }

  lemma InitHolds(s: State)
    requires Init(s)
    ensures Inv(s)
  {
  }

  lemma Minus(n: nat)
    requires n > 0
    ensures (n % WIDTH - 1) % WIDTH == (n - 1) % WIDTH
  {
  }

  lemma Plus(n: nat)
    ensures (n % WIDTH + 1) % WIDTH == (n + 1) % WIDTH
  {
  }

  // ----- pushing

  /** A successful push puts its node on top, whatever happened between its reads. */
  lemma PushIsSound(s: State, t: nat)
    requires Inv(s) && t < |s.threads| && s.threads[t].PushCas? && s.top == s.threads[t].t
    ensures var s' := Advance(s, t);
      s'.stack == [s.threads[t].n] + s.stack && Chained(s') && Distinct(s'.stack) && Placed(s') && Counted(s')
  {
    var s' := Advance(s, t);
    var n := s.threads[t].n;
    assert ThreadOk(s, t);
    assert n !in s.stack;
    Plus(|s.stack|);
    forall i: nat | i < |s'.stack|
      ensures Link(s', i)
    {
      assert 0 < i ==> Link(s, i - 1);
    }
  }

  // ----- popping

  /** A pop that goes through leaves a well-formed stack exactly when the next it read is the current one. */
  lemma PopIsSoundExactlyWhenNextIsCurrent(s: State, t: nat)
    requires Inv(s) && t < |s.threads| && s.threads[t].PopCas? && s.top == s.threads[t].t
    ensures Chained(Advance(s, t)) <==> s.threads[t].n == NextOf(s, s.top.ptr)
  {
    var s' := Advance(s, t);
    assert ThreadOk(s, t) && Link(s, 0);
    if s.threads[t].n == NextOf(s, s.top.ptr) {
      forall i: nat | i < |s'.stack|
        ensures Link(s', i)
      {
        assert Link(s, i + 1);
      }
    }
  }

  /** Such a pop takes the true top and nothing else. */
  lemma PopIsSound(s: State, t: nat)
    requires Inv(s) && t < |s.threads| && s.threads[t].PopCas? && s.top == s.threads[t].t
    requires s.threads[t].n == NextOf(s, s.top.ptr)
    ensures s.stack != [] && s.threads[t].t.ptr == s.stack[0]
    ensures var s' := Advance(s, t);
      s'.stack == s.stack[1..] && Chained(s') && Distinct(s'.stack) && Placed(s') && Counted(s')
  {
    assert ThreadOk(s, t);
    assert s.stack != [];
    assert s.stack[0] in s.stack;
    PopIsSoundExactlyWhenNextIsCurrent(s, t);
    Minus(|s.stack|);
    var s' := Advance(s, t);
    forall n
      ensures n in s'.stack <==> n in s.stack && n != s.stack[0]
    {
      if n in s'.stack {
        var i :| 0 <= i < |s'.stack| && s'.stack[i] == n;
        assert s.stack[i + 1] == n;
      }
      if n in s.stack && n != s.stack[0] {
        var i :| 0 <= i < |s.stack| && s.stack[i] == n;
        assert s'.stack[i - 1] == n;
      }
    }
  }

  /** Unless the node came back to the stack since its next was read, that next is the current one. */
  lemma StaleNeedsReuse(s: State, m: Move)
    requires Inv(s) && Stale(s, m)
    ensures Hazard(s, m)
  {
    assert ThreadOk(s, m.t);
    assert s.stack != [];
    assert s.stack[0] in s.stack;
  }

  // ----- every step

  ghost predicate SharedOk(s: State) {
    Chained(s) && Distinct(s.stack) && Placed(s) && Counted(s)
  }

  /** A next field that is not on the stack, and places off the stack, do not matter to the stack. */
  lemma SharedFrame(s: State, s': State)
    requires SharedOk(s) && s'.top == s.top && s'.stack == s.stack
    requires forall n :: n in s.stack ==> NextOf(s', n) == NextOf(s, n)
    requires forall n :: n in s'.place ==> n != 0
    requires forall n :: n in s.place && s.place[n] == OnStack <==> n in s'.place && s'.place[n] == OnStack
    ensures SharedOk(s')
  {
    forall i: nat | i < |s'.stack|
      ensures Link(s', i)
    {
      assert Link(s, i) && s.stack[i] in s.stack;
    }
  }

  lemma SharedKept(s: State, m: Move)
    requires Inv(s) && Enabled(s, m) && !Stale(s, m)
    ensures SharedOk(Apply(s, m))
  {
    var s' := Apply(s, m);
    if m.Go? && s.threads[m.t].PushCas? && s.top == s.threads[m.t].t {
      PushIsSound(s, m.t);
    } else if m.Go? && s.threads[m.t].PopCas? && s.top == s.threads[m.t].t {
      PopIsSound(s, m.t);
    } else {
      if m.Go? {
        assert ThreadOk(s, m.t);
      }
      SharedFrame(s, s');
    }
  }

  lemma MoverKept(s: State, t: nat)
    requires Inv(s) && t < |s.threads| && !s.threads[t].Idle?
    ensures ThreadOk(Advance(s, t), t)
  {
    assert ThreadOk(s, t);
    if s.stack != [] {
      assert s.stack[0] in s.stack;
    }
  }

  lemma OthersKept(s: State, t: nat, u: nat)
    requires Chained(s) && Placed(s) && t < |s.threads| && !s.threads[t].Idle? && u < |s.threads| && u != t
    requires ThreadOk(s, t) && ThreadOk(s, u)
    ensures u < |Advance(s, t).threads| && ThreadOk(Advance(s, t), u)
  {
    if s.stack != [] {
      assert s.stack[0] in s.stack;
    }
  }

  lemma StepKeeps(s: State, s': State, m: Move)
    requires Inv(s) && Step(s, s', m) && !Stale(s, m)
    ensures Inv(s')
  {
    SharedKept(s, m);
    forall u | 0 <= u < |s'.threads|
      ensures ThreadOk(s', u)
    {
      if m.Go? {
        if u == m.t {
          MoverKept(s, u);
        } else {
          assert ThreadOk(s, m.t) && ThreadOk(s, u);
          OthersKept(s, m.t, u);
        }
      } else {
        assert ThreadOk(s, u);
      }
    }
  }

  /** A step keeps the invariant exactly when it is not a pop with a stale next. */
  lemma StepKeepsExactly(s: State, s': State, m: Move)
    requires Inv(s) && Step(s, s', m)
    ensures Inv(s') <==> !Stale(s, m)
  {
    if Stale(s, m) {
      PopIsSoundExactlyWhenNextIsCurrent(s, m.t);
    } else {
      StepKeeps(s, s', m);
    }
  }

  // ----- runs

  ghost predicate Run(states: seq<State>, moves: seq<Move>) {
    && |states| == |moves| + 1
    && Init(states[0])
    && forall i {:trigger moves[i]} :: 0 <= i < |moves| ==> Step(states[i], states[i + 1], moves[i])
  }

  /** A run in which no pop goes through with a stale next. */
  ghost predicate CleanRun(states: seq<State>, moves: seq<Move>) {
    && Run(states, moves)
    && forall i {:trigger moves[i]} :: 0 <= i < |moves| ==> !Stale(states[i], moves[i])
  }

  lemma {:induction false} CleanRunKeeps(states: seq<State>, moves: seq<Move>, i: nat)
    requires CleanRun(states, moves) && i < |states|
    ensures Inv(states[i])
  {
    if i == 0 {
      InitHolds(states[0]);
    } else {
      CleanRunKeeps(states, moves, i - 1);
      StepKeeps(states[i - 1], states[i], moves[i - 1]);
    }
  }

  /** The stack and all threads are sound throughout a run exactly when the run is clean. */
  lemma RunIsSoundExactly(states: seq<State>, moves: seq<Move>)
    requires Run(states, moves)
    ensures (forall i :: 0 <= i < |states| ==> Inv(states[i])) <==> CleanRun(states, moves)
  {
    if forall i :: 0 <= i < |states| ==> Inv(states[i]) {
      forall i | 0 <= i < |moves|
        ensures !Stale(states[i], moves[i])
      {
        assert Inv(states[i]) && Inv(states[i + 1]);
        StepKeepsExactly(states[i], states[i + 1], moves[i]);
      }
    } else if CleanRun(states, moves) {
      forall i | 0 <= i < |states|
        ensures Inv(states[i])
      {
        CleanRunKeeps(states, moves, i);
      }
    }
  }

  /** A run is clean if no pop goes through on a node that came back after its next was read. */
  lemma {:induction false} NoReuseIsClean(states: seq<State>, moves: seq<Move>, n: nat)
    requires Run(states, moves) && n <= |moves|
    requires forall i :: 0 <= i < n ==> !Hazard(states[i], moves[i])
    ensures Inv(states[n]) && forall i :: 0 <= i < n ==> !Stale(states[i], moves[i])
  {
    if n == 0 {
      InitHolds(states[0]);
    } else {
      NoReuseIsClean(states, moves, n - 1);
      var s, m := states[n - 1], moves[n - 1];
      if Stale(s, m) {
        StaleNeedsReuse(s, m);
      }
      StepKeepsExactly(s, states[n], m);
    }
  }

  /** What a step does to the abstract stack: a push, a pop of its first node, or nothing. */
  lemma CleanStepIsStackStep(states: seq<State>, moves: seq<Move>, i: nat)
    requires CleanRun(states, moves) && i < |moves|
    ensures var s, s', m := states[i], states[i + 1], moves[i];
      || (s'.stack == s.stack)
      || (m.Go? && m.t < |s.threads| && s.threads[m.t].PushCas? && s'.stack == [s.threads[m.t].n] + s.stack)
      || (m.Go? && m.t < |s.threads| && s.threads[m.t].PopCas? && s.stack == [s.threads[m.t].t.ptr] + s'.stack)
  {
    CleanRunKeeps(states, moves, i);
    var s, m := states[i], moves[i];
    if m.Go? && s.threads[m.t].PopCas? && s.top == s.threads[m.t].t {
      PopIsSound(s, m.t);
    }
  }

  /** A pop gives NULL only if it found the stack empty, and size() is the length modulo 2^32. */
  lemma EmptyAndSize(states: seq<State>, moves: seq<Move>, i: nat)
    requires CleanRun(states, moves) && i < |states|
    ensures states[i].top.ptr == 0 <==> states[i].stack == []
    ensures states[i].top.count == |states[i].stack| % WIDTH && states[i].top.v == 0
  {
    CleanRunKeeps(states, moves, i);
  }

  /** Every node is on the stack once, in somebody's hands, or entering through one thread; never in two places. */
  lemma NodesAreInOnePlace(states: seq<State>, moves: seq<Move>, i: nat)
    requires CleanRun(states, moves) && i < |states|
    ensures forall n :: n in states[i].stack <==> n in states[i].place && states[i].place[n] == OnStack
    ensures forall j, k :: 0 <= j < k < |states[i].stack| ==> states[i].stack[j] != states[i].stack[k]
    ensures forall t :: 0 <= t < |states[i].threads| && states[i].threads[t].PushCas? ==>
      PlaceOf(states[i], states[i].threads[t].n) == Entering(t)
  {
    CleanRunKeeps(states, moves, i);
    var s := states[i];
    forall t | 0 <= t < |s.threads| && s.threads[t].PushCas?
      ensures PlaceOf(s, s.threads[t].n) == Entering(t)
    {
      assert ThreadOk(s, t);
    }
  }

  // ----- the assertion in pop

  /** No node's next field holds its own address. */
  ghost predicate NoLoops(s: State) {
    forall n {:trigger NextOf(s, n)} :: n != 0 ==> NextOf(s, n) != n
  }

  /** Nor is the thread about to write such a link, or has it read one. */
  ghost predicate NoLoopIn(s: State, t: nat)
    requires t < |s.threads|
  {
    match s.threads[t]
    case PushVer(n, p) => p != n
    case PushLink(n, seen) => seen.ptr != n
    case PopCas(seen, n, _) => n != seen.ptr
    case _ => true
  }

  ghost predicate LoopFree(s: State) {
    NoLoops(s) && forall t {:trigger NoLoopIn(s, t)} :: 0 <= t < |s.threads| ==> NoLoopIn(s, t)
  }

  predicate LinksToItself(m: Move) {
    m.Write? && m.value == m.n
  }

  lemma LoopFreeLinks(s: State, s': State, m: Move)
    requires LoopFree(s) && Step(s, s', m) && !LinksToItself(m)
    ensures NoLoops(s')
  {
    if m.Go? {
      assert NoLoopIn(s, m.t);
    }
    forall n | n != 0
      ensures NextOf(s', n) != n
    {
      assert NextOf(s, n) != n;
    }
  }

  lemma LoopFreeThread(s: State, s': State, m: Move, u: nat)
    requires Chained(s) && Placed(s) && LoopFree(s) && Step(s, s', m) && u < |s'.threads|
    requires m.Go? ==> ThreadOk(s, m.t)
    ensures NoLoopIn(s', u)
  {
    assert NoLoopIn(s, u);
    if s.stack != [] {
      assert s.stack[0] in s.stack;
    }
  }

  lemma {:induction false} StaysLoopFree(states: seq<State>, moves: seq<Move>, i: nat)
    requires CleanRun(states, moves) && i < |states| && NoLoops(states[0])
    requires forall k :: 0 <= k < i ==> !LinksToItself(moves[k])
    ensures LoopFree(states[i])
  {
    if i > 0 {
      var s, s', m := states[i - 1], states[i], moves[i - 1];
      StaysLoopFree(states, moves, i - 1);
      CleanRunKeeps(states, moves, i - 1);
      assert m.Go? ==> ThreadOk(s, m.t);
      LoopFreeLinks(s, s', m);
      forall u | 0 <= u < |s'.threads|
        ensures NoLoopIn(s', u)
      {
        LoopFreeThread(s, s', m, u);
      }
    }
  }

  /** pop's assert(n != t.ptr): it holds in clean runs as long as nobody makes a node point to itself. */
  lemma PopAssertHolds(states: seq<State>, moves: seq<Move>, i: nat, t: nat)
    requires CleanRun(states, moves) && i < |states| && NoLoops(states[0])
    requires forall k :: 0 <= k < i ==> !LinksToItself(moves[k])
    requires t < |states[i].threads| && states[i].threads[t].PopCas?
    ensures states[i].threads[t].n != states[i].threads[t].t.ptr
  {
    StaysLoopFree(states, moves, i);
    assert NoLoopIn(states[i], t);
  }
}
