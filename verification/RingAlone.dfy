/** A whole put or get while the other threads stand still: how long it takes, and exactly what it does. */
module RingAlone {
  import opened Common
  import opened RingLayout
  import opened RingReserve
  import opened RingMachine
  import opened RingInvariant
  import opened RingSteps
  import opened RingTheorems

  // ----- the steps of one thread

  /** What the program does not determine in one step. */
  datatype Choice = Choice(patient: bool, junk: nat)

  /** The thread takes as many steps as there are choices, or fewer if its call ends before. */
  function Runs(s: State, t: nat, cs: seq<Choice>): State
    decreases |cs|
  {
    if cs == [] || t >= |s.threads| || s.threads[t].Idle? then s
    else Runs(Apply(s, Go(t, cs[0].patient, cs[0].junk)), t, cs[1..])
  }

  lemma {:induction false} RunsOn(s: State, t: nat, cs: seq<Choice>, n: nat)
    requires n <= |cs|
    ensures Runs(s, t, cs) == Runs(Runs(s, t, cs[..n]), t, cs[n..])
    decreases |cs|
  {
    if n == 0 || t >= |s.threads| || s.threads[t].Idle? {
      assert cs[0..] == cs;
    } else {
      var s' := Apply(s, Go(t, cs[0].patient, cs[0].junk));
      RunsOn(s', t, cs[1..], n - 1);
      assert cs[1..][..n - 1] == cs[..n][1..] && cs[1..][n - 1..] == cs[n..];
    }
  }

  /** Whatever the choices, after n steps the state is s'. */
  ghost predicate Leads(s: State, t: nat, s': State, n: nat) {
    forall cs: seq<Choice> {:trigger Runs(s, t, cs)} :: |cs| == n ==> Runs(s, t, cs) == s'
  }

  lemma Then(s: State, t: nat, s': State, s'': State, n: nat, k: nat)
    requires Leads(s, t, s', n) && Leads(s', t, s'', k)
    ensures Leads(s, t, s'', n + k)
  {
    forall cs: seq<Choice> | |cs| == n + k
      ensures Runs(s, t, cs) == s''
    {
      RunsOn(s, t, cs, n);
    }
  }

  lemma OneStep(s: State, t: nat, s': State)
    requires t < |s.threads| && !s.threads[t].Idle?
    requires forall patient, junk :: Apply(s, Go(t, patient, junk)) == s'
    ensures Leads(s, t, s', 1)
  {
    forall cs: seq<Choice> | |cs| == 1
      ensures Runs(s, t, cs) == s'
    {
      assert cs[1..] == [];
    }
  }

  lemma GetStepLeads(s: State, t: nat, s': State)
    requires t < |s.threads| && !s.threads[t].Idle? && !IsPut(s.threads[t])
    requires GetStep(s, t, s.threads[t], true) == s' && GetStep(s, t, s.threads[t], false) == s'
    ensures Leads(s, t, s', 1)
  {
    forall patient: bool, junk: nat
      ensures Apply(s, Go(t, patient, junk)) == s'
    {
      if patient {
      }
    }
    OneStep(s, t, s');
  }

  // ----- a get: past the skipped slots

  /** The first record is there for the taking. */
  ghost predicate Offers(s: State) {
    SharedOk(s) && Claimed(s) < |s.log| && s.done[Claimed(s)]
  }

  ghost function First(s: State): Entry
    requires Offers(s)
  {
    s.log[Claimed(s)]
  }

  /** How many slots are skipped before the first record. */
  ghost function Skips(s: State): nat
    requires Offers(s)
  {
    if Wraps(First(s)) then S(s) - First(s).first.slot else 0
  }

  ghost predicate OnSkipped(s: State, p: Pos)
    requires Offers(s)
  {
    Wraps(First(s)) && p.lap == First(s).first.lap && First(s).first.slot <= p.slot < S(s)
  }

  lemma SkippedSlot(s: State, p: Pos)
    requires Offers(s) && OnSkipped(s, p)
    ensures p.slot != s.tail.slot && Get(s.token, p.slot, 0) == TOKEN_SKIPPED
  {
    assert AtFront(s, p) && SkipOk(s, Claimed(s), p.slot);
    BeforeTail(s, p);
  }

  lemma PastOneSlot(s: State, t: nat, from: Pos, p: Pos)
    requires Offers(s) && t < |s.threads| && OnSkipped(s, p)
    ensures Leads(Set(s, t, GetEnd(from, p)), t, Set(s, t, GetEnd(from, AddPos(s.g, p, 1))), 3)
  {
    SkippedSlot(s, p);
    var a, b := Set(s, t, GetEnd(from, p)), Set(s, t, GetToken(from, p));
    var c, d := Set(s, t, GetAgain(from, p)), Set(s, t, GetEnd(from, AddPos(s.g, p, 1)));
    GetStepLeads(a, t, b);
    GetStepLeads(b, t, c);
    GetStepLeads(c, t, d);
    Then(a, t, b, c, 1, 1);
    Then(a, t, c, d, 2, 1);
  }

  lemma {:induction false} PastSkipped(s: State, t: nat, from: Pos, p: Pos)
    requires Offers(s) && t < |s.threads| && OnSkipped(s, p)
    ensures Leads(Set(s, t, GetEnd(from, p)), t, Set(s, t, GetEnd(from, First(s).start)), 3 * (S(s) - p.slot))
    decreases S(s) - p.slot
  {
    var q := AddPos(s.g, p, 1);
    assert EntryOk(s, Claimed(s));
    PastOneSlot(s, t, from, p);
    if p.slot + 1 < S(s) {
      PastSkipped(s, t, from, q);
      Then(Set(s, t, GetEnd(from, p)), t, Set(s, t, GetEnd(from, q)), Set(s, t, GetEnd(from, First(s).start)),
           3, 3 * (S(s) - q.slot));
    } else {
      assert q == First(s).start;
    }
  }

  lemma ToFirst(s: State, t: nat)
    requires Offers(s) && t < |s.threads|
    ensures Leads(Set(s, t, GetHead), t, Set(s, t, GetEnd(s.head, First(s).start)), 1 + 3 * Skips(s))
  {
    assert EntryOk(s, Claimed(s));
    var a, b := Set(s, t, GetHead), Set(s, t, GetEnd(s.head, s.head));
    GetStepLeads(a, t, b);
    if Wraps(First(s)) {
      PastSkipped(s, t, s.head, s.head);
      Then(a, t, b, Set(s, t, GetEnd(s.head, First(s).start)), 1, 3 * Skips(s));
    }
  }

  // ----- a get: the claim

  /** The state right after the claim, but for the thread. */
  ghost function AfterClaim(s: State, t: nat): State
    requires Offers(s)
  {
    s.(head := End(First(s)), taker := s.taker + [t])
  }

  lemma FirstIsReadable(s: State)
    requires Offers(s)
    ensures var x := First(s).start.slot;
      && x != s.tail.slot && Get(s.token, x, 0) == TOKEN_HAS_DATA && Get(s.length, x, 0) == |First(s).rec|
      && UsedNodes(s.g, x, s.tail.slot) >= |First(s).rec|
      && AddPos(s.g, First(s).start, |First(s).rec|) == End(First(s))
  {
    var c := Claimed(s);
    assert EntryOk(s, c) && CellOk(s, c) && AtFront(s, First(s).start) && AtRecord(s, First(s).start);
    BeforeTail(s, First(s).start);
    RoomForRecord(s, First(s).start);
  }

  lemma Measured(s: State, t: nat, from: Pos)
    requires Offers(s) && t < |s.threads|
    ensures var e := First(s);
      Leads(Set(s, t, GetEnd(from, e.start)), t, Set(s, t, GetCas(from, e.start, |e.rec|)), 4)
  {
    FirstIsReadable(s);
    var p, n := First(s).start, |First(s).rec|;
    var a, b, c := Set(s, t, GetEnd(from, p)), Set(s, t, GetToken(from, p)), Set(s, t, GetLength(from, p));
    var d, e := Set(s, t, GetRoom(from, p, n)), Set(s, t, GetCas(from, p, n));
    GetStepLeads(a, t, b);
    GetStepLeads(b, t, c);
    GetStepLeads(c, t, d);
    GetStepLeads(d, t, e);
    Then(a, t, b, c, 1, 1);
    Then(a, t, c, d, 2, 1);
    Then(a, t, d, e, 3, 1);
  }

  lemma ClaimsFirst(s: State, t: nat)
    requires Offers(s) && t < |s.threads|
    ensures var e := First(s);
      Leads(Set(s, t, GetCas(s.head, e.start, |e.rec|)), t,
            Set(AfterClaim(s, t), t, GetCopy(Claimed(s), s.head, e.start, |e.rec|, [])), 1)
  {
    FirstIsReadable(s);
    var e := First(s);
    GetStepLeads(Set(s, t, GetCas(s.head, e.start, |e.rec|)), t,
                 Set(AfterClaim(s, t), t, GetCopy(Claimed(s), s.head, e.start, |e.rec|, [])));
  }

  // ----- a get: the copy and the reset

  lemma {:induction false} Copies(s: State, t: nat, i: nat, from: Pos, head: Pos, rec: seq<int>, k: nat, end: Pos)
    requires t < |s.threads| && k <= |rec| && end == AddPos(s.g, head, |rec|)
    requires forall j :: 0 <= j < |rec| ==> Get(s.chunk, head.slot + j, 0) == rec[j]
    ensures Leads(Set(s, t, GetCopy(i, from, head, |rec|, rec[..k])), t, Set(s, t, GetClear(i, from, end, rec)),
                  |rec| - k + 1)
    decreases |rec| - k
  {
    var a := Set(s, t, GetCopy(i, from, head, |rec|, rec[..k]));
    if k < |rec| {
      var b := Set(s, t, GetCopy(i, from, head, |rec|, rec[..k + 1]));
      assert rec[..k] + [rec[k]] == rec[..k + 1];
      GetStepLeads(a, t, b);
      Copies(s, t, i, from, head, rec, k + 1, end);
      Then(a, t, b, Set(s, t, GetClear(i, from, end, rec)), 1, |rec| - k);
    } else {
      assert rec[..k] == rec;
      GetStepLeads(a, t, Set(s, t, GetClear(i, from, end, rec)));
    }
  }

  /** The slot is one of the n that follow c, going round. */
  predicate InArc(g: Geo, c: nat, n: nat, x: nat) {
    if c <= x then x < c + n else x + Slots(g) < c + n
  }

  /** What the reset of n slots from c on leaves. */
  ghost predicate Reset(s: State, s': State, c: Pos, n: nat) {
    && s' == s.(token := s'.token, owner := s'.owner) && |s'.token| == |s.token| && |s'.owner| == |s.owner|
    && (forall x :: 0 <= x < |s.token| ==>
          s'.token[x] == if InArc(s.g, c.slot, n, x) then TOKEN_NO_DATA else s.token[x])
    && (forall x :: 0 <= x < |s.owner| ==> s'.owner[x] == if InArc(s.g, c.slot, n, x) then None else s.owner[x])
  }

  ghost function Cleared(s: State, c: Pos): State {
    s.(token := Put(s.token, c.slot, TOKEN_NO_DATA), owner := Put(s.owner, c.slot, None))
  }

  lemma NextSlot(g: Geo, c: Pos)
    requires c.slot < Slots(g)
    ensures AddPos(g, c, 1).slot == if c.slot + 1 < Slots(g) then c.slot + 1 else 0
  {
  }

  lemma ArcRest(g: Geo, c: nat, d: nat, n: nat, x: nat)
    requires c < Slots(g) && x < Slots(g) && 0 < n < Slots(g) && d == if c + 1 < Slots(g) then c + 1 else 0
    ensures InArc(g, c, n, x) <==> x == c || InArc(g, d, n - 1, x)
  {
  }

  lemma ResetOne(s: State, s': State, c: Pos, d: Pos, n: nat)
    requires c.slot < S(s) == |s.token| == |s.owner| && 0 < n < S(s)
    requires d.slot == if c.slot + 1 < S(s) then c.slot + 1 else 0
    requires Reset(Cleared(s, c), s', d, n - 1)
    ensures Reset(s, s', c, n)
  {
    forall x: nat | x < S(s)
      ensures InArc(s.g, c.slot, n, x) <==> x == c.slot || InArc(s.g, d.slot, n - 1, x)
    {
      ArcRest(s.g, c.slot, d.slot, n, x);
    }
  }

  lemma ClearStep(s: State, t: nat, i: nat, c: Pos, end: Pos, got: seq<int>)
    requires t < |s.threads| && c.slot != end.slot
    ensures Leads(Set(s, t, GetClear(i, c, end, got)), t,
                  Set(Cleared(s, c), t, GetClear(i, AddPos(s.g, c, 1), end, got)), 1)
  {
    GetStepLeads(Set(s, t, GetClear(i, c, end, got)), t,
                 Set(Cleared(s, c), t, GetClear(i, AddPos(s.g, c, 1), end, got)));
  }

  /** The reset alone: a step for each slot and one to notice the end. */
  lemma {:induction false} Resets(s: State, t: nat, i: nat, c: Pos, end: Pos, got: seq<int>, n: nat) returns (s': State)
    requires t < |s.threads| && c.slot < S(s) == |s.token| == |s.owner| && n < S(s)
    requires end.slot == if c.slot + n < S(s) then c.slot + n else c.slot + n - S(s)
    ensures Reset(s, s', c, n) && Leads(Set(s, t, GetClear(i, c, end, got)), t, Set(s', t, Idle), n + 1)
    decreases n
  {
    if n == 0 {
      s' := s;
      GetStepLeads(Set(s, t, GetClear(i, c, end, got)), t, Set(s, t, Idle));
    } else {
      var d := AddPos(s.g, c, 1);
      NextSlot(s.g, c);
      ClearStep(s, t, i, c, end, got);
      s' := Resets(Cleared(s, c), t, i, d, end, got, n - 1);
      ResetOne(s, s', c, d, n);
      Then(Set(s, t, GetClear(i, c, end, got)), t, Set(Cleared(s, c), t, GetClear(i, d, end, got)), Set(s', t, Idle),
           1, n);
    }
  }

  // ----- a whole get

  lemma FirstIsCopied(s: State, t: nat)
    requires Offers(s) && t < |s.threads|
    ensures var e := First(s);
      Leads(Set(AfterClaim(s, t), t, GetCopy(Claimed(s), s.head, e.start, |e.rec|, [])), t,
            Set(AfterClaim(s, t), t, GetClear(Claimed(s), s.head, End(e), e.rec)), |e.rec| + 1)
  {
    var c, e := Claimed(s), First(s);
    FirstIsReadable(s);
    assert EntryOk(s, c) && CellOk(s, c);
    forall j | 0 <= j < |e.rec|
      ensures Get(s.chunk, e.start.slot + j, 0) == e.rec[j]
    {
      assert ChunkOk(s, c, j);
    }
    assert e.rec[..0] == [];
    Copies(AfterClaim(s, t), t, c, s.head, e.start, e.rec, 0, End(e));
  }

  /** From the first read to the end of the copy. */
  lemma ToTheReset(s: State, t: nat)
    requires Offers(s) && t < |s.threads|
    ensures var e := First(s);
      Leads(Set(s, t, GetHead), t, Set(AfterClaim(s, t), t, GetClear(Claimed(s), s.head, End(e), e.rec)),
            7 + 3 * Skips(s) + |e.rec|)
  {
    var e, k := First(s), Skips(s);
    var a, b := Set(s, t, GetHead), Set(s, t, GetEnd(s.head, e.start));
    var c, d := Set(s, t, GetCas(s.head, e.start, |e.rec|)),
                Set(AfterClaim(s, t), t, GetCopy(Claimed(s), s.head, e.start, |e.rec|, []));
    ToFirst(s, t);
    Measured(s, t, s.head);
    ClaimsFirst(s, t);
    FirstIsCopied(s, t);
    Then(a, t, b, c, 1 + 3 * k, 4);
    Then(a, t, c, d, 5 + 3 * k, 1);
    Then(a, t, d, Set(AfterClaim(s, t), t, GetClear(Claimed(s), s.head, End(e), e.rec)), 6 + 3 * k, |e.rec| + 1);
  }

  /** The slots of the first record, skipped ones included, are those that follow head. */
  lemma CoversIsArc(s: State, x: nat)
    requires Offers(s) && x < S(s)
    ensures Covers(s.g, First(s), x) <==> InArc(s.g, s.head.slot, Skips(s) + |First(s).rec|, x)
    ensures s.head.slot < S(s) && Skips(s) + |First(s).rec| < S(s)
    ensures var n, h := Skips(s) + |First(s).rec|, s.head.slot;
      End(First(s)).slot == if h + n < S(s) then h + n else h + n - S(s)
  {
    assert EntryOk(s, Claimed(s));
  }

  /** The state after a get that took the first record. */
  ghost predicate TookFirst(s: State, s': State, t: nat)
    requires Offers(s)
  {
    && s' == s.(head := End(First(s)), taker := s.taker + [t], token := s'.token, owner := s'.owner)
    && |s'.token| == |s.token| && |s'.owner| == |s.owner|
    && (forall x :: 0 <= x < |s.token| ==>
          s'.token[x] == if Covers(s.g, First(s), x) then TOKEN_NO_DATA else s.token[x])
    && (forall x :: 0 <= x < |s.owner| ==> s'.owner[x] == if Covers(s.g, First(s), x) then None else s.owner[x])
  }

  lemma ResetTookFirst(s: State, u: State, t: nat)
    requires Offers(s) && Reset(AfterClaim(s, t), u, s.head, Skips(s) + |First(s).rec|)
    ensures TookFirst(s, u, t)
  {
    forall x: nat | x < S(s)
      ensures Covers(s.g, First(s), x) <==> InArc(s.g, s.head.slot, Skips(s) + |First(s).rec|, x)
    {
      CoversIsArc(s, x);
    }
  }

  ghost function GetSteps(s: State): nat
    requires Offers(s)
  {
    8 + 4 * Skips(s) + 2 * |First(s).rec|
  }

  lemma GetFromHead(s: State, t: nat) returns (u: State)
    requires Offers(s) && t < |s.threads| && s.threads[t].Idle?
    ensures TookFirst(s, u, t) && Leads(Set(s, t, GetHead), t, u, GetSteps(s))
  {
    var e, n := First(s), Skips(s) + |First(s).rec|;
    ToTheReset(s, t);
    CoversIsArc(s, 0);
    u := Resets(AfterClaim(s, t), t, Claimed(s), s.head, End(e), e.rec, n);
    ResetTookFirst(s, u, t);
    assert u.threads[t := Idle] == u.threads;
    Then(Set(s, t, GetHead), t, Set(AfterClaim(s, t), t, GetClear(Claimed(s), s.head, End(e), e.rec)), u,
         7 + 3 * Skips(s) + |e.rec|, n + 1);
  }

  lemma TookFirstFromQueue(s: State, s': State, t: nat)
    requires Offers(s) && TookFirst(s, s', t)
    ensures Queue(s) == [First(s).rec] + Queue(s')
  {
    assert s.log[Claimed(s)..][0] == First(s) && s.log[Claimed(s)..][1..] == s.log[Claimed(s) + 1..];
  }

  /**
   A get that runs alone when the first record is written takes exactly that record: it claims it, copies it as it
   was put, leaves all else in the queue, resets the tokens of its slots and of no others, and is back after
   8 + 4 * skipped + 2 * slots steps, whatever its patience.
   */
  lemma GetAlone(states: seq<State>, moves: seq<Move>, n: nat, t: nat, cs: seq<Choice>)
    requires CleanRun(states, moves) && n < |states| && t < |states[n].threads| && states[n].threads[t].Idle?
    requires Claimed(states[n]) < |states[n].log| && Claimed(states[n]) < |states[n].done|
    requires states[n].done[Claimed(states[n])]
    ensures Enabled(states[n], BeginGet(t)) && Offers(states[n])
    ensures |cs| == GetSteps(states[n]) ==>
      var s := states[n];
      var s' := Runs(Apply(s, BeginGet(t)), t, cs);
      && TookFirst(s, s', t) && Queue(s) == [First(s).rec] + Queue(s')
      && var copied := Runs(Apply(s, BeginGet(t)), t, cs[..7 + 3 * Skips(s) + |First(s).rec|]);
         copied.threads == s.threads[t := GetClear(Claimed(s), s.head, End(First(s)), First(s).rec)]
  {
    var s := states[n];
    CleanRunKeeps(states, moves, n);
    var u := GetFromHead(s, t);
    ToTheReset(s, t);
    TookFirstFromQueue(s, u, t);
  }

  /** A get that runs alone on the empty queue is back after two steps and changes nothing. */
  lemma GetAloneOnEmpty(states: seq<State>, moves: seq<Move>, n: nat, t: nat, cs: seq<Choice>)
    requires CleanRun(states, moves) && n < |states| && t < |states[n].threads| && states[n].threads[t].Idle?
    requires Queue(states[n]) == [] && |cs| == 2
    ensures Runs(Apply(states[n], BeginGet(t)), t, cs) == states[n]
  {
    var s := states[n];
    EqualMeansEmpty(states, moves, n);
    var a, b := Set(s, t, GetHead), Set(s, t, GetEnd(s.head, s.head));
    GetStepLeads(a, t, b);
    assert s.threads[t := Idle] == s.threads;
    GetStepLeads(b, t, s);
    Then(a, t, b, s, 1, 1);
  }

  // ----- a put: up to its CAS

  lemma PutStepLeads(s: State, t: nat, s': State)
    requires t < |s.threads| && IsPut(s.threads[t]) && forall junk :: PutStep(s, t, s.threads[t], junk) == s'
    ensures Leads(s, t, s', 1)
  {
    forall patient: bool, junk: nat
      ensures Apply(s, Go(t, patient, junk)) == s'
    {
      assert PutStep(s, t, s.threads[t], junk) == s';
    }
    OneStep(s, t, s');
  }

  /** Where a put that runs alone is after its three reads for the number of free slots. */
  lemma PutCounts(s: State, t: nat, rec: seq<int>)
    requires t < |s.threads|
    ensures Leads(Set(s, t, PutTail(rec)), t,
      Set(s, t, if EmptyNodes(s.g, s.head.slot, s.tail.slot) < |rec| + RESERVE_BLOCK_COUNT then Idle
                else PutNewTail(rec, s.tail, s.head)), 3)
  {
    var a, b := Set(s, t, PutTail(rec)), Set(s, t, PutFreeHead(rec, s.tail));
    var c := Set(s, t, PutFreeTail(rec, s.tail, s.head));
    var d := Set(s, t, if EmptyNodes(s.g, s.head.slot, s.tail.slot) < |rec| + RESERVE_BLOCK_COUNT then Idle
                       else PutNewTail(rec, s.tail, s.head));
    PutStepLeads(a, t, b);
    PutStepLeads(b, t, c);
    PutStepLeads(c, t, d);
    Then(a, t, b, c, 1, 1);
    Then(a, t, c, d, 2, 1);
  }

  ghost function Found(s: State, rec: seq<int>): Reservation {
    Reserve(s.g, s.head.slot, s.tail.slot, |rec|)
  }

  lemma NewTailIsWrap(s: State, rec: seq<int>)
    requires Shape(s) && EmptyNodes(s.g, s.head.slot, s.tail.slot) >= |rec| + RESERVE_BLOCK_COUNT
    ensures (s.tail.slot + |rec|) % S(s) == Wrap(s.tail.slot + |rec|, S(s))
  {
    UsedIsDistance(s.g, s.head.slot, s.tail.slot);
    WrapIsRemainder(s.tail.slot + |rec|, S(s));
  }

  /** How many steps lie before the CAS, or before the refusal. */
  ghost function StepsToCas(s: State, rec: seq<int>): nat {
    if EmptyNodes(s.g, s.head.slot, s.tail.slot) < |rec| + RESERVE_BLOCK_COUNT then 3
    else if Wrap(s.tail.slot + |rec|, S(s)) < s.tail.slot then 5 else 4
  }

  lemma ToTheCas(s: State, t: nat, rec: seq<int>)
    requires Shape(s) && t < |s.threads|
    ensures Leads(Set(s, t, PutTail(rec)), t,
      Set(s, t, match Found(s, rec) case Full => Idle case Reserved(idx, tail) => PutCas(rec, s.tail, idx, tail)),
      StepsToCas(s, rec))
  {
    PutCounts(s, t, rec);
    if EmptyNodes(s.g, s.head.slot, s.tail.slot) >= |rec| + RESERVE_BLOCK_COUNT {
      NewTailIsWrap(s, rec);
      var newTail := Wrap(s.tail.slot + |rec|, S(s));
      var a, d := Set(s, t, PutTail(rec)), Set(s, t, PutNewTail(rec, s.tail, s.head));
      var e := Set(s, t, if newTail < s.tail.slot then PutWrapHead(rec, s.tail)
                         else PutCas(rec, s.tail, s.tail.slot, newTail));
      PutStepLeads(d, t, e);
      Then(a, t, d, e, 3, 1);
      if newTail < s.tail.slot {
        var f := Set(s, t, if s.head.slot - 1 < |rec| then Idle else PutCas(rec, s.tail, 0, |rec|));
        PutStepLeads(e, t, f);
        Then(a, t, e, f, 4, 1);
      }
    }
  }

  // ----- a put: the stores

  /** The skipped slots from x on are marked, and nothing else changes. */
  lemma {:induction false} Marks(u: State, t: nat, i: nat, x: nat, cs: seq<Choice>)
    requires t < |u.threads| && u.threads[t] == PutMark(i, x) && x < S(u) == |u.token| && |cs| == S(u) - x
    ensures var v := Runs(u, t, cs);
      && v == u.(token := v.token, threads := u.threads[t := PutLength(i)]) && |v.token| == |u.token|
      && forall y :: 0 <= y < |u.token| ==> v.token[y] == if x <= y then TOKEN_SKIPPED else u.token[y]
    decreases S(u) - x
  {
    var w := PutStep(u, t, u.threads[t], cs[0].junk);
    assert Runs(u, t, cs) == Runs(w, t, cs[1..]);
    if x + 1 < S(u) {
      Marks(w, t, i, x + 1, cs[1..]);
    } else {
      assert cs[1..] == [];
    }
  }

  /** What the store of the payload and of the token leaves, with the payload stored up to k before. */
  ghost predicate Stored(u: State, v: State, t: nat, i: nat, k: nat)
    requires t < |u.threads| && i < |u.log|
  {
    var start, rec := u.log[i].start.slot, u.log[i].rec;
    && v == u.(token := v.token, length := v.length, chunk := v.chunk, done := Put(u.done, i, true),
               threads := u.threads[t := Idle])
    && |v.token| == |u.token| && |v.length| == |u.length| && |v.chunk| == |u.chunk|
    && (forall x :: 0 <= x < |u.chunk| ==>
          v.chunk[x] == if start + k <= x < start + |rec| then rec[x - start] else u.chunk[x])
    && (forall x :: 0 <= x < |u.length| && !(start + (if k == 0 then 1 else k) <= x < start + |rec|) ==>
          v.length[x] == u.length[x])
    && (forall x :: 0 <= x < |u.token| && !(start + k <= x < start + |rec|) && x != start ==> v.token[x] == u.token[x])
    && Get(v.token, start, TOKEN_HAS_DATA) == TOKEN_HAS_DATA
  }

  lemma LastStores(u: State, t: nat, i: nat, cs: seq<Choice>)
    requires t < |u.threads| && i < |u.log| && u.threads[t] == PutChunk(i, |u.log[i].rec|) && |cs| == 2
    requires u.log[i].rec != []
    ensures Stored(u, Runs(u, t, cs), t, i, |u.log[i].rec|)
  {
    var w := PutStep(u, t, u.threads[t], cs[0].junk);
    assert Runs(u, t, cs) == Runs(w, t, cs[1..]);
    assert Runs(w, t, cs[1..]) == Runs(PutStep(w, t, w.threads[t], cs[1].junk), t, cs[1..][1..]);
  }

  lemma StoredMore(u: State, w: State, v: State, t: nat, i: nat, k: nat, junk: nat)
    requires t < |u.threads| && i < |u.log| && u.threads[t] == PutChunk(i, k) && k < |u.log[i].rec|
    requires w == PutStep(u, t, u.threads[t], junk) && Stored(w, v, t, i, k + 1)
    ensures Stored(u, v, t, i, k)
  {
  }

  lemma {:induction false} Chunks(u: State, t: nat, i: nat, k: nat, cs: seq<Choice>)
    requires t < |u.threads| && i < |u.log| && u.threads[t] == PutChunk(i, k) && k <= |u.log[i].rec|
    requires u.log[i].rec != [] && |cs| == |u.log[i].rec| - k + 2
    ensures Stored(u, Runs(u, t, cs), t, i, k)
    decreases |u.log[i].rec| - k
  {
    if k == |u.log[i].rec| {
      LastStores(u, t, i, cs);
    } else {
      var w := PutStep(u, t, u.threads[t], cs[0].junk);
      assert Runs(u, t, cs) == Runs(w, t, cs[1..]);
      Chunks(w, t, i, k + 1, cs[1..]);
      StoredMore(u, w, Runs(u, t, cs), t, i, k, cs[0].junk);
    }
  }

  // ----- a whole put

  /** The reservation that a put alone makes. */
  ghost function Entered(s: State, t: nat, rec: seq<int>): Entry
    requires Found(s, rec).Reserved?
  {
    var idx := Found(s, rec).idx;
    Entry(rec, t, s.tail, if idx == s.tail.slot then s.tail else Pos(s.tail.lap + 1, idx))
  }

  ghost function Skipped(s: State, rec: seq<int>): int
    requires Found(s, rec).Reserved?
  {
    if Found(s, rec).idx == s.tail.slot then 0 else S(s) - s.tail.slot
  }

  lemma EnteredFits(s: State, t: nat, rec: seq<int>)
    requires Shape(s) && rec != [] && Found(s, rec).Reserved?
    ensures var e := Entered(s, t, rec);
      && e.start.slot + |rec| <= S(s) && (Wraps(e) ==> e.start.slot == 0 && 0 < s.tail.slot && |rec| < s.tail.slot)
      && (Wraps(e) <==> Found(s, rec).idx != s.tail.slot)
  {
    ReserveIsRoom(s.g, s.head.slot, s.tail.slot, |rec|);
    ReserveRefuses(s.g, s.head.slot, s.tail.slot, |rec|);
  }

  /** The record is in the ring, readable, behind all others, and nothing outside its slots has changed. */
  ghost predicate Appended(s: State, s': State, t: nat, rec: seq<int>)
    requires Found(s, rec).Reserved?
  {
    var e, start := Entered(s, t, rec), Found(s, rec).idx;
    && s' == s.(tail := Pos(e.start.lap, Found(s, rec).tail), log := s.log + [e], done := s.done + [true],
                owner := Owned(s.g, s.owner, e, |s.log|), token := s'.token, length := s'.length, chunk := s'.chunk)
    && |s'.token| == |s.token| && |s'.length| == |s.length| && |s'.chunk| == |s.chunk|
    && Get(s'.token, start, 0) == TOKEN_HAS_DATA && Get(s'.length, start, 0) == |rec|
    && (forall k :: 0 <= k < |rec| ==> Get(s'.chunk, start + k, 0) == rec[k])
    && (forall x :: 0 <= x < |s.token| && Covers(s.g, e, x) && !(start <= x < start + |rec|) ==>
          s'.token[x] == TOKEN_SKIPPED)
    && (forall x :: 0 <= x < |s.token| && !Covers(s.g, e, x) ==> s'.token[x] == s.token[x])
    && (forall x :: 0 <= x < |s.length| && !Covers(s.g, e, x) ==> s'.length[x] == s.length[x])
    && (forall x :: 0 <= x < |s.chunk| && !Covers(s.g, e, x) ==> s'.chunk[x] == s.chunk[x])
  }

  /** Right after the marks: the token words tell which slots are skipped. */
  ghost predicate MarkedAll(s: State, u: State, t: nat, rec: seq<int>)
    requires Found(s, rec).Reserved? && t < |s.threads|
  {
    var e := Entered(s, t, rec);
    && u == s.(tail := Pos(e.start.lap, Found(s, rec).tail), log := s.log + [e], done := s.done + [false],
               owner := Owned(s.g, s.owner, e, |s.log|), token := u.token,
               threads := s.threads[t := PutLength(|s.log|)])
    && |u.token| == |s.token|
    && forall x :: 0 <= x < |s.token| ==>
         u.token[x] == if Wraps(e) && s.tail.slot <= x then TOKEN_SKIPPED else s.token[x]
  }

  lemma ReservesAndMarks(s: State, t: nat, rec: seq<int>, cs: seq<Choice>)
    requires Shape(s) && t < |s.threads| && rec != [] && Found(s, rec).Reserved? && |cs| == 1 + Skipped(s, rec)
    ensures MarkedAll(s, Runs(Set(s, t, PutCas(rec, s.tail, Found(s, rec).idx, Found(s, rec).tail)), t, cs), t, rec)
  {
    EnteredFits(s, t, rec);
    var a := Set(s, t, PutCas(rec, s.tail, Found(s, rec).idx, Found(s, rec).tail));
    var b := AfterReserve(a, t, a.threads[t]);
    assert Runs(a, t, cs) == Runs(b, t, cs[1..]);
    if Wraps(Entered(s, t, rec)) {
      Marks(b, t, |s.log|, s.tail.slot, cs[1..]);
    } else {
      assert cs[1..] == [];
    }
  }

  lemma StoresAppend(s: State, u: State, v: State, t: nat, rec: seq<int>)
    requires Shape(s) && |s.done| == |s.log| && t < |s.threads| && s.threads[t].Idle?
    requires rec != [] && Found(s, rec).Reserved? && MarkedAll(s, u, t, rec)
    requires Stored(PutStep(u, t, u.threads[t], 0), v, t, |s.log|, 0)
    ensures Appended(s, v, t, rec)
  {
    EnteredFits(s, t, rec);
    assert s.threads[t := Idle] == s.threads;
  }

  lemma LengthThenChunks(s: State, u: State, t: nat, rec: seq<int>, cs: seq<Choice>)
    requires Shape(s) && t < |s.threads| && s.threads[t].Idle? && rec != [] && Found(s, rec).Reserved?
    requires MarkedAll(s, u, t, rec) && |cs| == |rec| + 3
    ensures Appended(s, Runs(u, t, cs), t, rec)
  {
    var w := PutStep(u, t, u.threads[t], 0);
    assert PutStep(u, t, u.threads[t], cs[0].junk) == w;
    assert Runs(u, t, cs) == Runs(w, t, cs[1..]);
    Chunks(w, t, |s.log|, 0, cs[1..]);
    StoresAppend(s, u, Runs(w, t, cs[1..]), t, rec);
  }

  ghost function PutSteps(s: State, rec: seq<int>): int {
    StepsToCas(s, rec) + if Found(s, rec).Full? then 0 else 1 + Skipped(s, rec) + |rec| + 3
  }

  lemma PutFromTail(s: State, t: nat, rec: seq<int>, cs: seq<Choice>)
    requires Shape(s) && t < |s.threads| && s.threads[t].Idle? && rec != [] && |cs| == PutSteps(s, rec)
    ensures var s' := Runs(Set(s, t, PutTail(rec)), t, cs);
      match Found(s, rec) case Full => s' == s case Reserved(_, _) => Appended(s, s', t, rec)
  {
    ToTheCas(s, t, rec);
    var a, k := Set(s, t, PutTail(rec)), StepsToCas(s, rec);
    if Found(s, rec).Full? {
      assert s.threads[t := Idle] == s.threads;
    } else {
      EnteredFits(s, t, rec);
      var m := 1 + Skipped(s, rec);
      var b := Set(s, t, PutCas(rec, s.tail, Found(s, rec).idx, Found(s, rec).tail));
      RunsOn(a, t, cs, k);
      RunsOn(b, t, cs[k..], m);
      ReservesAndMarks(s, t, rec, cs[k..][..m]);
      LengthThenChunks(s, Runs(b, t, cs[k..][..m]), t, rec, cs[k..][m..]);
    }
  }

  lemma AppendedToQueue(s: State, s': State, t: nat, rec: seq<int>)
    requires Shape(s) && Found(s, rec).Reserved? && Appended(s, s', t, rec)
    ensures Queue(s') == Queue(s) + [rec]
  {
    var c := Claimed(s);
    assert s'.log[c..] == s.log[c..] + [Entered(s, t, rec)];
    RecsAppend(s.log[c..], Entered(s, t, rec));
  }

  /**
   A put that runs alone is refused exactly when there is no reservation for it, and then changes nothing.
   Otherwise it appends exactly the record that was asked for, readable, skipped slots marked, and touches no slot
   but its own. It is back after the stated steps, whatever its payload looks like.
   */
  lemma PutAlone(states: seq<State>, moves: seq<Move>, n: nat, t: nat, rec: seq<int>, cs: seq<Choice>)
    requires CleanRun(states, moves) && n < |states| && t < |states[n].threads| && states[n].threads[t].Idle?
    requires rec != [] && |cs| == PutSteps(states[n], rec)
    ensures Enabled(states[n], BeginPut(t, rec))
    ensures var s := states[n];
      var s' := Runs(Apply(s, BeginPut(t, rec)), t, cs);
      match Found(s, rec)
      case Full => s' == s
      case Reserved(_, _) => Appended(s, s', t, rec) && Queue(s') == Queue(s) + [rec]
  {
    var s := states[n];
    CleanRunKeeps(states, moves, n);
    PutFromTail(s, t, rec, cs);
    if Found(s, rec).Reserved? {
      AppendedToQueue(s, Runs(Apply(s, BeginPut(t, rec)), t, cs), t, rec);
    }
  }
}
