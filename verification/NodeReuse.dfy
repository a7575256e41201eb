/** Undisturbed calls on the stack of free nodes, and what reuse of a node does to a disturbed one. */
module NodeReuse {
  import opened NodeStack

  ghost predicate Follows(s: State, moves: seq<Move>, s': State)
    decreases |moves|
  {
    if moves == [] then s == s'
    else Enabled(s, moves[0]) && Follows(Apply(s, moves[0]), moves[1..], s')
  }

  lemma {:induction false} FollowsJoin(s: State, ms: seq<Move>, s': State, ns: seq<Move>, s'': State)
    requires Follows(s, ms, s') && Follows(s', ns, s'')
    ensures Follows(s, ms + ns, s'')
    decreases |ms|
  {
    if ms == [] {
      assert ms + ns == ns;
    } else {
      FollowsJoin(Apply(s, ms[0]), ms[1..], s', ns, s'');
      assert (ms + ns)[1..] == ms[1..] + ns;
    }
  }

  lemma FollowsStep(s: State, m: Move, ms: seq<Move>, s': State)
    requires Enabled(s, m) && Follows(Apply(s, m), ms, s')
    ensures Follows(s, [m] + ms, s')
  {
    assert ([m] + ms)[1..] == ms;
  }

  function AfterPush(s: State, t: nat, n: nat): State
    requires t < |s.threads|
  {
    s.(top := Add(s.top, n, 1), next := s.next[n := s.top.ptr], threads := AllPushed(s.threads, n)[t := Idle],
       place := s.place[n := OnStack], stack := [n] + s.stack)
  }

  function AfterPop(s: State, t: nat): State
    requires t < |s.threads|
  {
    s.(top := Add(s.top, NextOf(s, s.top.ptr), -1), threads := s.threads[t := Idle],
       place := s.place[s.top.ptr := InHands], stack := if s.stack == [] then [] else s.stack[1..])
  }

  function PushMoves(t: nat, n: nat): seq<Move> {
    [BeginPush(t, n)] + ([Go(t)] + ([Go(t)] + ([Go(t)] + ([Go(t)] + []))))
  }

  function PopMoves(t: nat): seq<Move> {
    [BeginPop(t)] + ([Go(t)] + ([Go(t)] + ([Go(t)] + ([Go(t)] + []))))
  }

  /** Undisturbed, a push is done after one round. */
  lemma PushAlone(s: State, t: nat, n: nat)
    requires t < |s.threads| && s.threads[t].Idle? && n in s.place && s.place[n] == InHands
    ensures Follows(s, PushMoves(t, n), AfterPush(s, t, n))
  {
    var s1 := Apply(s, BeginPush(t, n));
    var s2 := Advance(s1, t);
    var s3 := Advance(s2, t);
    var s4 := Advance(s3, t);
    var s5 := Advance(s4, t);
    assert s4.threads[t] == PushCas(n, s.top);
    assert s5.threads == AllPushed(s.threads, n)[t := Idle];
    assert s5.place == s.place[n := OnStack];
    assert s5 == AfterPush(s, t, n);
    FollowsStep(s4, Go(t), [], s5);
    FollowsStep(s3, Go(t), [Go(t)] + [], s5);
    FollowsStep(s2, Go(t), [Go(t)] + ([Go(t)] + []), s5);
    FollowsStep(s1, Go(t), [Go(t)] + ([Go(t)] + ([Go(t)] + [])), s5);
    FollowsStep(s, BeginPush(t, n), [Go(t)] + ([Go(t)] + ([Go(t)] + ([Go(t)] + []))), s5);
  }

  /** Undisturbed, a pop of a non-empty stack is done after one round. */
  lemma PopAlone(s: State, t: nat)
    requires t < |s.threads| && s.threads[t].Idle? && s.top.ptr != 0
    ensures Follows(s, PopMoves(t), AfterPop(s, t))
  {
    var s1 := Apply(s, BeginPop(t));
    var s2 := Advance(s1, t);
    var s3 := Advance(s2, t);
    var s4 := Advance(s3, t);
    var s5 := Advance(s4, t);
    assert s4.threads[t] == PopCas(s.top, NextOf(s, s.top.ptr), false);
    assert s5.threads == s.threads[t := Idle];
    assert s5 == AfterPop(s, t);
    FollowsStep(s4, Go(t), [], s5);
    FollowsStep(s3, Go(t), [Go(t)] + [], s5);
    FollowsStep(s2, Go(t), [Go(t)] + ([Go(t)] + []), s5);
    FollowsStep(s1, Go(t), [Go(t)] + ([Go(t)] + ([Go(t)] + [])), s5);
    FollowsStep(s, BeginPop(t), [Go(t)] + ([Go(t)] + ([Go(t)] + ([Go(t)] + []))), s5);
  }

  /** Nodes 1 and 2 on the stack, 3 in hands, two idle threads. */
  function TwoNodes(): State {
    State(Top(1, 0, 2), map[1 := 2, 2 := 0], [Idle, Idle], map[1 := OnStack, 2 := OnStack, 3 := InHands], [1, 2])
  }

  lemma TwoNodesReachable(s: State)
    requires s == State(Top(0, 0, 0), map[], [Idle, Idle], map[], [])
    ensures Init(s) && exists moves :: Follows(s, moves, TwoNodes())
  {
    var s3 := s.(place := map[1 := InHands, 2 := InHands, 3 := InHands]);
    FollowsStep(Apply(Apply(s, Allocate(1)), Allocate(2)), Allocate(3), [], s3);
    FollowsStep(Apply(s, Allocate(1)), Allocate(2), [Allocate(3)] + [], s3);
    FollowsStep(s, Allocate(1), [Allocate(2)] + ([Allocate(3)] + []), s3);
    PushAlone(s3, 0, 2);
    var s4 := AfterPush(s3, 0, 2);
    PushAlone(s4, 0, 1);
    assert AfterPush(s4, 0, 1).threads == [Idle, Idle];
    assert AfterPush(s4, 0, 1) == TwoNodes();
    FollowsJoin(s3, PushMoves(0, 2), s4, PushMoves(0, 1), TwoNodes());
    FollowsJoin(s, [Allocate(1)] + ([Allocate(2)] + ([Allocate(3)] + [])), s3,
                PushMoves(0, 2) + PushMoves(0, 1), TwoNodes());
  }

  /** Thread 1 has read node 1 and its next, 2. */
  function Pending(): State {
    TwoNodes().(threads := [Idle, PopCas(Top(1, 0, 2), 2, false)])
  }

  /** Meanwhile thread 0 has popped both, pushed 3 and pushed 1 again; the count is 2 as before. */
  function Reused(): State {
    State(Top(1, 0, 2), map[1 := 3, 2 := 0, 3 := 0], [Idle, PopCas(Top(1, 0, 2), 2, true)],
          map[1 := OnStack, 2 := InHands, 3 := OnStack], [1, 3])
  }

  lemma PendingFollows()
    ensures exists moves :: Follows(TwoNodes(), moves, Pending())
  {
    var s := TwoNodes();
    var s1 := Apply(s, BeginPop(1));
    var s2 := Advance(s1, 1);
    var s3 := Advance(s2, 1);
    assert Advance(s3, 1).threads == Pending().threads;
    assert Advance(s3, 1) == Pending();
    FollowsStep(s3, Go(1), [], Pending());
    FollowsStep(s2, Go(1), [Go(1)] + [], Pending());
    FollowsStep(s1, Go(1), [Go(1)] + ([Go(1)] + []), Pending());
    FollowsStep(s, BeginPop(1), [Go(1)] + ([Go(1)] + ([Go(1)] + [])), Pending());
  }

  /** In between, nothing is on the stack. */
  function Emptied(): State {
    Pending().(top := Top(0, 0, 0), place := map[1 := InHands, 2 := InHands, 3 := InHands], stack := [])
  }

  lemma EmptiedFollows()
    ensures exists moves :: Follows(Pending(), moves, Emptied())
  {
    var s := Pending();
    var s1 := AfterPop(s, 0);
    PopAlone(s, 0);
    PopAlone(s1, 0);
    assert s1.threads == s.threads && AfterPop(s1, 0).threads == s.threads;
    assert s1.stack == [2] && s1.stack[1..] == [];
    assert AfterPop(s1, 0) == Emptied();
    FollowsJoin(s, PopMoves(0), s1, PopMoves(0), Emptied());
  }

  /** Node 3 pushed. */
  function PushedOne(): State {
    State(Top(3, 0, 1), map[1 := 2, 2 := 0, 3 := 0], [Idle, PopCas(Top(1, 0, 2), 2, false)],
          map[1 := InHands, 2 := InHands, 3 := OnStack], [3])
  }

  lemma PushThree()
    ensures AfterPush(Emptied(), 0, 3) == PushedOne()
  {
    assert AfterPush(Emptied(), 0, 3).threads == PushedOne().threads;
  }

  lemma PushOneAgain()
    ensures AfterPush(PushedOne(), 0, 1) == Reused()
  {
    assert AfterPush(PushedOne(), 0, 1).threads == Reused().threads;
  }

  lemma ReusedFollows()
    ensures exists moves :: Follows(Emptied(), moves, Reused())
  {
    PushThree();
    PushOneAgain();
    PushAlone(Emptied(), 0, 3);
    PushAlone(PushedOne(), 0, 1);
    FollowsJoin(Emptied(), PushMoves(0, 3), PushedOne(), PushMoves(0, 1), Reused());
  }

  /**
   Without the hypothesis of a clean run pop is not sound: in this reachable state the pending pop goes
   through, after which node 2 is the top of the stack and in hands at once, and node 3 is lost.
   */
  lemma ReuseBreaksPop(s: State)
    requires s == State(Top(0, 0, 0), map[], [Idle, Idle], map[], [])
    ensures Init(s) && exists moves :: Follows(s, moves, Reused())
    ensures Enabled(Reused(), Go(1)) && Stale(Reused(), Go(1)) && Hazard(Reused(), Go(1))
    ensures var broken := Apply(Reused(), Go(1));
      broken.top.ptr == 2 && PlaceOf(broken, 2) == InHands && broken.stack == [3] && !Chained(broken)
  {
    TwoNodesReachable(s);
    PendingFollows();
    EmptiedFollows();
    ReusedFollows();
    var a, b, c, d :| Follows(s, a, TwoNodes()) && Follows(TwoNodes(), b, Pending())
      && Follows(Pending(), c, Emptied()) && Follows(Emptied(), d, Reused());
    FollowsJoin(Pending(), c, Emptied(), d, Reused());
    FollowsJoin(TwoNodes(), b, Pending(), c + d, Reused());
    FollowsJoin(s, a, TwoNodes(), b + (c + d), Reused());
    assert Reused().stack[1..] == [3];
  }
}
