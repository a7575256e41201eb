/**
 Runs of whole put and get calls, one after the other: what usage they leave behind, when it leaves its
 documented range, and what is then in the queue.
 */
module RingRuns {
  import opened Common
  import opened RingLayout
  import opened RingReserve
  import opened Ring

  datatype Call = PutCall(data: seq<Byte>, sec: nat, usec: nat) | GetCall(bufSize: int)

  /** head_pos and tail_pos between two calls. */
  datatype Place = Place(head: nat, tail: nat)

  ghost predicate InRing(g: Geo, p: Place) {
    Positions(g, p.head, p.tail)
  }

  function UsageAt(g: Geo, p: Place): int {
    Usage(g, p.head, p.tail)
  }

  /** The call is a put of a good argument, and it finds room. */
  ghost predicate Accepts(g: Geo, p: Place, c: Call)
    requires g.ns > HEADER
  {
    && c.PutCall? && 0 < |c.data| <= MAX_DATA_LENGTH
    && Reserve(g, p.head, p.tail, Needed(g, |c.data|)).Reserved?
  }

  /** The call may lead from p to q: a put moves the tail as it reserved, a get moves head towards the tail. */
  ghost predicate Leads(g: Geo, p: Place, q: Place, c: Call)
    requires g.ns > HEADER
  {
    && InRing(g, q)
    && match c
       case PutCall(data, _, _) =>
         q == if Accepts(g, p, c) then Place(p.head, Reserve(g, p.head, p.tail, Needed(g, |data|)).tail) else p
       case GetCall(_) =>
         q.tail == p.tail && Dist(g, p.head, q.head) + Dist(g, q.head, q.tail) == Dist(g, p.head, p.tail)
  }

  ghost predicate LeadsAt(g: Geo, ps: seq<Place>, cs: seq<Call>, i: int)
    requires g.ns > HEADER
  {
    0 <= i < |cs| && i + 1 < |ps| && Leads(g, ps[i], ps[i + 1], cs[i])
  }

  /** The calls cs in a row, with the places before, between and behind them. */
  ghost predicate Run(g: Geo, ps: seq<Place>, cs: seq<Call>)
    requires g.ns > HEADER
  {
    && |ps| == |cs| + 1 && InRing(g, ps[0])
    && forall i {:trigger LeadsAt(g, ps, cs, i)} :: 0 <= i < |cs| ==> LeadsAt(g, ps, cs, i)
  }

  // ----- usage

  /** The put finds room, goes round, and its record ends directly below head. */
  ghost predicate EatsSpare(g: Geo, p: Place, c: Call)
    requires g.ns > HEADER
  {
    Accepts(g, p, c) && p.tail + Needed(g, |c.data|) >= Slots(g) && p.head == Needed(g, |c.data|) + 1
  }

  lemma CallKeepsRange(g: Geo, p: Place, q: Place, c: Call)
    requires GoodGeo(g) && InRing(g, p) && Leads(g, p, q, c) && UsageAt(g, p) <= 99
    ensures 0 <= UsageAt(g, q)
    ensures UsageAt(g, q) <= 99 <==> !EatsSpare(g, p, c)
  {
    UsageRange(g, p.head, p.tail);
    UsageRange(g, q.head, q.tail);
    UsedIsDistance(g, p.head, p.tail);
    UsedIsDistance(g, q.head, q.tail);
    if Accepts(g, p, c) {
      BlocksFit(g, |c.data| + HEADER);
      SpareCanBeEatenUp(g, p.head, p.tail, Needed(g, |c.data|));
    }
  }

  lemma {:induction false} RangeUpTo(g: Geo, ps: seq<Place>, cs: seq<Call>, k: nat)
    requires GoodGeo(g) && Run(g, ps, cs) && k < |ps| && UsageAt(g, ps[0]) <= 99
    requires forall i :: 0 <= i < k ==> !EatsSpare(g, ps[i], cs[i])
    ensures InRing(g, ps[k]) && 0 <= UsageAt(g, ps[k]) <= 99
  {
    if k == 0 {
      UsageRange(g, ps[0].head, ps[0].tail);
    } else {
      RangeUpTo(g, ps, cs, k - 1);
      assert LeadsAt(g, ps, cs, k - 1);
      CallKeepsRange(g, ps[k - 1], ps[k], cs[k - 1]);
    }
  }

  /** In a run, usage stays within 0 to 99 exactly when no put goes round to end directly below head. */
  lemma UsageStaysInRange(g: Geo, ps: seq<Place>, cs: seq<Call>)
    requires GoodGeo(g) && Run(g, ps, cs) && UsageAt(g, ps[0]) <= 99
    ensures (forall k :: 0 <= k < |ps| ==> 0 <= UsageAt(g, ps[k]) <= 99)
      <==> forall i :: 0 <= i < |cs| ==> !EatsSpare(g, ps[i], cs[i])
  {
    if forall k :: 0 <= k < |ps| ==> 0 <= UsageAt(g, ps[k]) <= 99 {
      forall i | 0 <= i < |cs|
        ensures !EatsSpare(g, ps[i], cs[i])
      {
        PlaceInRing(g, ps, cs, i);
        assert LeadsAt(g, ps, cs, i);
        assert UsageAt(g, ps[i + 1]) <= 99;
        CallKeepsRange(g, ps[i], ps[i + 1], cs[i]);
      }
    } else if forall i :: 0 <= i < |cs| ==> !EatsSpare(g, ps[i], cs[i]) {
      forall k | 0 <= k < |ps|
        ensures 0 <= UsageAt(g, ps[k]) <= 99
      {
        RangeUpTo(g, ps, cs, k);
      }
    }
  }

  lemma PlaceInRing(g: Geo, ps: seq<Place>, cs: seq<Call>, k: nat)
    requires g.ns > HEADER && Run(g, ps, cs) && k < |ps|
    ensures InRing(g, ps[k])
  {
    assert k > 0 ==> LeadsAt(g, ps, cs, k - 1);
  }

  /** Every record of the run takes fewer slots than the reserve has. */
  ghost predicate SmallRecords(g: Geo, cs: seq<Call>)
    requires g.ns > HEADER
  {
    forall i :: 0 <= i < |cs| && cs[i].PutCall? && 0 < |cs[i].data| <= MAX_DATA_LENGTH ==>
      Needed(g, |cs[i].data|) < RESERVE_BLOCK_COUNT
  }

  /** Records of fewer than 100 slots never take usage out of its range, however long the run. */
  lemma SmallRecordsStayInRange(g: Geo, ps: seq<Place>, cs: seq<Call>)
    requires GoodGeo(g) && Run(g, ps, cs) && UsageAt(g, ps[0]) <= 99 && SmallRecords(g, cs)
    ensures forall k :: 0 <= k < |ps| ==> 0 <= UsageAt(g, ps[k]) <= 99
  {
    forall i | 0 <= i < |cs|
      ensures !EatsSpare(g, ps[i], cs[i])
    {
      PlaceInRing(g, ps, cs, i);
      if EatsSpare(g, ps[i], cs[i]) {
        BlocksFit(g, |cs[i].data| + HEADER);
        SpareCanBeEatenUp(g, ps[i].head, ps[i].tail, Needed(g, |cs[i].data|));
      }
    }
    UsageStaysInRange(g, ps, cs);
  }

  // ----- the same on the object

  /** The records that the puts of a run added. */
  ghost function Added(g: Geo, ps: seq<Place>, cs: seq<Call>): seq<Record>
    requires g.ns > HEADER && |ps| >= |cs|
  {
    if cs == [] then []
    else
      var i := |cs| - 1;
      Added(g, ps, cs[..i]) + if Accepts(g, ps[i], cs[i]) then [Record(cs[i].data, cs[i].sec, cs[i].usec)] else []
  }

  lemma {:induction false} AddedPrefix(g: Geo, ps: seq<Place>, p: Place, cs: seq<Call>)
    requires g.ns > HEADER && |ps| >= |cs|
    ensures Added(g, ps + [p], cs) == Added(g, ps, cs)
  {
    if cs != [] {
      AddedPrefix(g, ps, p, cs[..|cs| - 1]);
    }
  }

  predicate TimesFit(c: Call) {
    c.PutCall? ==> c.sec < WORD && c.usec < WORD
  }

  /** One call on the object; its effect in terms of places, and of the queue. */
  method Do(q: MmapQueue, c: Call)
    requires q.Valid() && TimesFit(c)
    modifies q, q.nodes
    ensures q.Valid()
    ensures Leads(q.g, Place(old(q.headPos), old(q.tailPos)), Place(q.headPos, q.tailPos), c)
    ensures var added := if Accepts(q.g, Place(old(q.headPos), old(q.tailPos)), c)
                         then [Record(c.data, c.sec, c.usec)] else [];
      var taken := if c.GetCall? && c.bufSize >= 1 && old(q.Contents()) != [] then 1 else 0;
      q.Contents() == (old(q.Contents()) + added)[taken..]
  {
    match c {
      case PutCall(data, sec, usec) =>
        var ret := q.Put(data, sec, usec);
      case GetCall(bufSize) =>
        var ret, r := q.Get(bufSize);
    }
  }

  /**
   A run of calls on the object, and the usage read before, between and behind them. What the queue holds in
   the end is what it held and what was added, less as many of the oldest as were taken.
   */
  method Replay(q: MmapQueue, cs: seq<Call>) returns (usages: seq<int>, ghost ps: seq<Place>, ghost taken: nat)
    requires q.Valid() && forall i :: 0 <= i < |cs| ==> TimesFit(cs[i])
    modifies q, q.nodes
    ensures q.Valid() && Run(q.g, ps, cs)
    ensures ps[0] == Place(old(q.headPos), old(q.tailPos)) && ps[|cs|] == Place(q.headPos, q.tailPos)
    ensures |usages| == |ps| && forall k :: 0 <= k < |ps| ==> usages[k] == UsageAt(q.g, ps[k])
    ensures usages[0] <= 99 && SmallRecords(q.g, cs) ==> forall k :: 0 <= k < |usages| ==> 0 <= usages[k] <= 99
    ensures var all := old(q.Contents()) + Added(q.g, ps, cs);
      taken <= |all| && q.Contents() == all[taken..]
  {
    var u := q.GetUsage();
    usages, ps, taken := [u], [Place(q.headPos, q.tailPos)], 0;
    ghost var all := q.Contents();
    for i := 0 to |cs|
      invariant q.Valid() && |ps| == i + 1 && Run(q.g, ps, cs[..i])
      invariant ps[0] == Place(old(q.headPos), old(q.tailPos)) && ps[i] == Place(q.headPos, q.tailPos)
      invariant |usages| == i + 1 && forall k :: 0 <= k <= i ==> usages[k] == UsageAt(q.g, ps[k])
      invariant all == old(q.Contents()) + Added(q.g, ps, cs[..i])
      invariant taken <= |all| && q.Contents() == all[taken..]
    {
      ghost var before := q.Contents();
      Do(q, cs[i]);
      ghost var p := Place(q.headPos, q.tailPos);
      RunGrows(q.g, ps, cs, i, p);
      all, taken := QueueGrows(q.g, ps, cs, i, p, before, q.Contents(), all, taken);
      ps := ps + [p];
      u := q.GetUsage();
      usages := usages + [u];
    }
    assert cs[..|cs|] == cs;
    if usages[0] <= 99 && SmallRecords(q.g, cs) {
      SmallRecordsStayInRange(q.g, ps, cs);
    }
  }

  lemma RunGrows(g: Geo, ps: seq<Place>, cs: seq<Call>, i: nat, p: Place)
    requires g.ns > HEADER && i < |cs| && |ps| == i + 1 && Run(g, ps, cs[..i]) && Leads(g, ps[i], p, cs[i])
    ensures Run(g, ps + [p], cs[..i + 1])
  {
    var ps', cs' := ps + [p], cs[..i + 1];
    forall j | 0 <= j < |cs'|
      ensures LeadsAt(g, ps', cs', j)
    {
      assert j < i ==> LeadsAt(g, ps, cs[..i], j);
    }
  }

  /** The queue after one more call. */
  lemma QueueGrows(g: Geo, ps: seq<Place>, cs: seq<Call>, i: nat, p: Place, before: seq<Record>, after: seq<Record>,
                   all: seq<Record>, taken: nat) returns (all': seq<Record>, taken': nat)
    requires g.ns > HEADER && i < |cs| && |ps| == i + 1 && taken <= |all| && before == all[taken..]
    requires var added := if Accepts(g, ps[i], cs[i]) then [Record(cs[i].data, cs[i].sec, cs[i].usec)] else [];
      var gone := if cs[i].GetCall? && cs[i].bufSize >= 1 && before != [] then 1 else 0;
      after == (before + added)[gone..]
    ensures all <= all' && Added(g, ps + [p], cs[..i + 1]) == Added(g, ps, cs[..i]) + all'[|all|..]
    ensures taken' <= |all'| && after == all'[taken'..]
  {
    var added := if Accepts(g, ps[i], cs[i]) then [Record(cs[i].data, cs[i].sec, cs[i].usec)] else [];
    all' := all + added;
    taken' := taken + if cs[i].GetCall? && cs[i].bufSize >= 1 && before != [] then 1 else 0;
    assert cs[..i + 1][..i] == cs[..i];
    AddedPrefix(g, ps, p, cs[..i]);
    assert all'[taken..] == before + added;
    assert all'[|all|..] == added;
  }

  // ----- a run that breaks the range

  lemma SlotsTaken()
    ensures var g := Geo(24, 409);
      Needed(g, 3608) == 151 && Needed(g, 2600) == 109 && Needed(g, 3584) == 150
  {
    NeededIsMacro(Geo(24, 409), 3608);
    NeededIsMacro(Geo(24, 409), 2600);
    NeededIsMacro(Geo(24, 409), 3584);
  }

  /** Put 151 slots, take them, put 109, put 150: the last put goes round and ends directly below head. */
  method Fill(q: MmapQueue, a: seq<Byte>, b: seq<Byte>, c: seq<Byte>) returns (percent: int)
    requires q.Valid() && q.g == Geo(24, 409) && q.headPos == q.tailPos == 0
    requires 0 < |a| <= 4096 && 0 < |b| <= 4096 && 0 < |c| <= 4096
    requires Needed(q.g, |a|) == 151 && Needed(q.g, |b|) == 109 && Needed(q.g, |c|) == 150
    modifies q, q.nodes
    ensures q.Valid() && percent == 100
  {
    UsageCanReadOneHundred();
    assert q.Contents() == [];
    var ret := q.Put(a, 0, 0);
    assert q.tailPos == 151;
    var len, r := q.Get(4096);
    assert q.headPos == 151;
    ret := q.Put(b, 0, 0);
    ret := q.Put(c, 0, 0);
    assert q.tailPos == 150;
    percent := q.GetUsage();
  }

  /** In a ring of 409 elements of 8 bytes these calls make mq_get_usage return 100. */
  method FillCompletely() returns (q: MmapQueue, percent: int)
    ensures q.Valid() && percent == 100
  {
    q := new MmapQueue(8, 409);
    SlotsTaken();
    percent := Fill(q, seq(3608, _ => 1), seq(2600, _ => 2), seq(3584, _ => 3));
  }
}
