/** First in, first out, over whole runs, in terms of what the callers asked for. */
module QueueOrder {
  import opened Common
  import opened QueueMachine
  import opened QueueTheorems

  // ----- requests

  /** The operation that the thread asked for last. */
  ghost function Asked(moves: seq<Move>, t: Tid): Option<Op> {
    if moves == [] then None
    else
      var x := moves[|moves| - 1];
      if x.t == t && x.c.Start? then Some(x.c.op) else Asked(moves[..|moves| - 1], t)
  }

  ghost function CallAt(s: State, t: Tid): Call {
    if t in s.threads then CallOf(s.threads[t]) else NoCall
  }

  lemma RefinesAt(states: seq<State>, moves: seq<Move>, n: nat)
    requires Run(states, moves) && n < |moves|
    ensures var f, f' := FifoOf(states[n].mem), FifoOf(states[n + 1].mem);
      && Sound(f) && Sound(f') && f.log <= f'.log
      && CallStep(f, f', CallAt(states[n], moves[n].t), CallAt(states[n + 1], moves[n].t), moves[n].c)
    ensures forall u :: u != moves[n].t ==> CallAt(states[n + 1], u) == CallAt(states[n], u)
  {
    StepAt(states, moves, n);
    var s, s', t, c := states[n], states[n + 1], moves[n].t, moves[n].c;
    StepRefines(s, s', t, c);
    StepGrows(s, s', t, c);
    FifoOfIsSound(s.mem);
  }

  /** Whatever runs in a thread, and whatever it has the result of, is what the thread asked for last. */
  lemma {:induction false} CallIsRequest(states: seq<State>, moves: seq<Move>, n: nat, t: Tid)
    requires Run(states, moves) && n <= |moves|
    ensures var call := CallAt(states[n], t); !call.NoCall? ==> Asked(moves[..n], t) == Some(call.op)
  {
    if n == 0 {
      assert Init(states[0]);
    } else {
      CallIsRequest(states, moves, n - 1, t);
      RefinesAt(states, moves, n - 1);
      assert moves[..n][..n - 1] == moves[..n - 1];
    }
  }

  // ----- what took effect

  datatype Taken = Got(v: Item) | Discarded // what a pop(p, len) and a pop() tell their callers

  /** The call of the thread that makes move n takes effect. */
  ghost predicate Completes(states: seq<State>, moves: seq<Move>, n: nat)
    requires n < |moves| < |states|
  {
    CallAt(states[n], moves[n].t).Busy? && CallAt(states[n + 1], moves[n].t).Ready?
  }

  /** The items that the move's thread had asked to be pushed, if the push takes effect with this move. */
  ghost function PushedBy(states: seq<State>, moves: seq<Move>, n: nat): seq<Item>
    requires n < |moves| < |states|
  {
    var op := Asked(moves[..n], moves[n].t);
    if Completes(states, moves, n) && op.Some? && op.value.PushOp? then op.value.batch else []
  }

  /** What the move's thread is told, if its pop takes effect with this move. */
  ghost function PoppedBy(states: seq<State>, moves: seq<Move>, n: nat): seq<Taken>
    requires n < |moves| < |states|
  {
    if !Completes(states, moves, n) then []
    else
      match CallAt(states[n + 1], moves[n].t).res
      case Popped(v) => [Got(v)]
      case Dropped => [Discarded]
      case _ => []
  }

  /** All items asked to be pushed, in the order in which the pushes took effect among the first n moves. */
  ghost function Pushes(states: seq<State>, moves: seq<Move>, n: nat): seq<Item>
    requires n <= |moves| < |states|
  {
    if n == 0 then [] else Pushes(states, moves, n - 1) + PushedBy(states, moves, n - 1)
  }

  /** What the pops returned, in the order in which they took effect. */
  ghost function Pops(states: seq<State>, moves: seq<Move>, n: nat): seq<Taken>
    requires n <= |moves| < |states|
  {
    if n == 0 then [] else Pops(states, moves, n - 1) + PoppedBy(states, moves, n - 1)
  }

  /** The k-th pop took the k-th push, and the queue holds the pushes that no pop took. */
  ghost predicate InOrder(ins: seq<Item>, outs: seq<Taken>, f: Fifo) {
    && f.log == ins && f.deq == |outs| <= |ins|
    && forall k :: 0 <= k < |outs| && outs[k].Got? ==> outs[k].v == ins[k]
  }

  lemma InOrderPush(ins: seq<Item>, outs: seq<Taken>, f: Fifo, f': Fifo, batch: seq<Item>)
    requires InOrder(ins, outs, f) && Sound(f) && Sound(f') && f.log <= f'.log
    requires f'.deq == f.deq && Contents(f') == Contents(f) + batch
    ensures InOrder(ins + batch, outs, f')
  {
    assert f.log == f.log[..f.deq] + Contents(f);
    assert f'.log == f'.log[..f.deq] + Contents(f');
  }

  lemma InOrderPop(ins: seq<Item>, outs: seq<Taken>, f: Fifo, f': Fifo, taken: Taken)
    requires InOrder(ins, outs, f) && Sound(f) && Sound(f') && f.log <= f'.log
    requires f'.deq == f.deq + 1 && Contents(f) != [] && Contents(f') == Contents(f)[1..]
    requires taken.Got? ==> taken.v == Contents(f)[0]
    ensures InOrder(ins, outs + [taken], f')
  {
    assert |f'.log| == |f.log|;
  }

  /** The items of a call that takes effect now. */
  ghost function BatchOf(a: Call, b: Call): seq<Item> {
    if a.Busy? && b.Ready? && a.op.PushOp? then a.op.batch else []
  }

  ghost function TakenOf(a: Call, b: Call): seq<Taken> {
    if a.Busy? && b.Ready? then
      (match b.res case Popped(v) => [Got(v)] case Dropped => [Discarded] case _ => [])
    else []
  }

  lemma InOrderStep(ins: seq<Item>, outs: seq<Taken>, f: Fifo, f': Fifo, a: Call, b: Call, c: Choice)
    requires InOrder(ins, outs, f) && Sound(f) && Sound(f') && f.log <= f'.log && CallStep(f, f', a, b, c)
    ensures InOrder(ins + BatchOf(a, b), outs + TakenOf(a, b), f')
  {
    assert ins + [] == ins && outs + [] == outs;
    if TakenOf(a, b) != [] {
      InOrderPop(ins, outs, f, f', TakenOf(a, b)[0]);
    } else if f' != f {
      InOrderPush(ins, outs, f, f', BatchOf(a, b));
    }
  }

  lemma {:induction false} MovesAreInOrder(states: seq<State>, moves: seq<Move>, n: nat)
    requires Run(states, moves) && n <= |moves|
    ensures InOrder(Pushes(states, moves, n), Pops(states, moves, n), FifoOf(states[n].mem))
  {
    if n > 0 {
      var k := n - 1;
      MovesAreInOrder(states, moves, k);
      RefinesAt(states, moves, k);
      CallIsRequest(states, moves, k, moves[k].t);
      InOrderStep(Pushes(states, moves, k), Pops(states, moves, k), FifoOf(states[k].mem), FifoOf(states[n].mem),
                  CallAt(states[k], moves[k].t), CallAt(states[n], moves[k].t), moves[k].c);
    }
  }

  /**
   First in, first out: in every run the k-th pop to take effect returns the k-th item asked to be pushed, and
   the list in memory holds, in order, the items pushed and not popped.
   */
  lemma FirstInFirstOut(states: seq<State>, moves: seq<Move>)
    requires Run(states, moves)
    ensures var ins, outs := Pushes(states, moves, |moves|), Pops(states, moves, |moves|);
      && |outs| <= |ins|
      && (forall k :: 0 <= k < |outs| && outs[k].Got? ==> outs[k].v == ins[k])
      && ListHolds(states[|moves|].mem, ins[|outs|..])
  {
    MovesAreInOrder(states, moves, |moves|);
    RunKeeps(states, moves, |moves|);
    ListHoldsContents(states[|moves|].mem);
  }
}
