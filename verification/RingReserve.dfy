/** How mq_put finds room: the slot arithmetic on head and tail. */
module RingReserve {
  import opened RingLayout

  /** A position brought back into the ring; WrapIsRemainder says that it is the remainder of the macros. */
  function Wrap(x: int, d: int): int {
    if x < d then x else x - d
  }

  lemma WrapIsRemainder(x: int, d: int)
    requires 0 <= x < 2 * d
    ensures Wrap(x, d) == x % d
  {
  }

  /** The macro for the number of free slots. */
  function EmptyNodes(g: Geo, head: nat, tail: nat): int {
    Wrap(head + g.cap - tail, Slots(g))
  }

  /** The positions that the program handles, and so the remainders of its macros, stay below two rounds. */
  lemma EmptyNodesIsMacro(g: Geo, head: nat, tail: nat)
    requires Positions(g, head, tail)
    ensures EmptyNodes(g, head, tail) == (head + g.cap - tail) % Slots(g)
  {
    WrapIsRemainder(head + g.cap - tail, Slots(g));
  }

  /** The macro for the number of used slots. */
  function UsedNodes(g: Geo, head: nat, tail: nat): int {
    g.cap - EmptyNodes(g, head, tail)
  }

  /** mq_get_usage. */
  function Usage(g: Geo, head: nat, tail: nat): int {
    if g.cap != 0 then UsedNodes(g, head, tail) * 100 / g.cap else 0
  }

  datatype Reservation = Full | Reserved(idx: nat, tail: nat)

  /** Where a record of n slots goes and where the tail then is. */
  function Reserve(g: Geo, head: nat, tail: nat, n: nat): Reservation {
    if EmptyNodes(g, head, tail) < n + RESERVE_BLOCK_COUNT then Full
    else
      var newTail := Wrap(tail + n, Slots(g));
      if newTail < tail then
        if head - 1 < n then Full else Reserved(0, n)
      else Reserved(tail, newTail)
  }

  ghost predicate Positions(g: Geo, head: nat, tail: nat) {
    head < Slots(g) && tail < Slots(g)
  }

  /** The used-slot macro is the distance from head to tail. */
  lemma UsedIsDistance(g: Geo, head: nat, tail: nat)
    requires Positions(g, head, tail)
    ensures UsedNodes(g, head, tail) == Dist(g, head, tail)
    ensures 0 <= EmptyNodes(g, head, tail) <= g.cap
    ensures EmptyNodes(g, head, tail) == g.cap <==> head == tail
  {
  }

  /**
   A reservation is n contiguous slots inside the array, none of them in use; the slots from the
   old tail to the new one are exactly the skipped ones and these n; and the tail stops short of head.
   */
  lemma ReserveIsRoom(g: Geo, head: nat, tail: nat, n: nat)
    requires Positions(g, head, tail) && n > 0 && Reserve(g, head, tail, n).Reserved?
    ensures var r := Reserve(g, head, tail, n);
      && r.idx + n <= Slots(g) && r.tail < Slots(g) && r.tail != head && r.tail == After(g, r.idx, n)
      && (forall x :: r.idx <= x < r.idx + n ==> !InUse(g, head, tail, x) && InUse(g, tail, r.tail, x))
      && (r.idx != tail ==> r.idx == 0 && tail > 0 && forall x :: tail <= x < Slots(g) ==> !InUse(g, head, tail, x))
      && Dist(g, head, tail) + Dist(g, tail, r.tail) == Dist(g, head, r.tail) < Slots(g)
      && Dist(g, tail, r.tail) == n + if r.idx != tail then Slots(g) - tail else 0
  {
    UsedIsDistance(g, head, tail);
  }

  /** A reservation can be refused only for the two reasons the code gives, in terms of distances. */
  lemma ReserveRefuses(g: Geo, head: nat, tail: nat, n: nat)
    requires Positions(g, head, tail) && n > 0
    ensures Reserve(g, head, tail, n).Full? <==>
      || g.cap - Dist(g, head, tail) < n + RESERVE_BLOCK_COUNT
      || (tail + n >= Slots(g) && head <= n)
  {
    UsedIsDistance(g, head, tail);
  }

  /** The reserve of 100 slots is kept, except that going round to slot 0 may eat n of them. */
  lemma ReserveKeepsSpare(g: Geo, head: nat, tail: nat, n: nat)
    requires Positions(g, head, tail) && n > 0 && Reserve(g, head, tail, n).Reserved?
    ensures var r := Reserve(g, head, tail, n);
      && (r.idx == tail ==> EmptyNodes(g, head, r.tail) >= RESERVE_BLOCK_COUNT)
      && (r.idx != tail ==> EmptyNodes(g, head, r.tail) >= 0 && EmptyNodes(g, head, r.tail) >= RESERVE_BLOCK_COUNT - n)
  {
    ReserveIsRoom(g, head, tail, n);
    ReserveRefuses(g, head, tail, n);
    UsedIsDistance(g, head, tail);
    UsedIsDistance(g, head, Reserve(g, head, tail, n).tail);
  }

  /** The put that goes round and lands exactly below head leaves no slot free at all. */
  lemma SpareCanBeEatenUp(g: Geo, head: nat, tail: nat, n: nat)
    requires Positions(g, head, tail) && n > 0 && Reserve(g, head, tail, n).Reserved?
    ensures EmptyNodes(g, head, Reserve(g, head, tail, n).tail) == 0 <==> tail + n >= Slots(g) && head == n + 1
    ensures tail + n >= Slots(g) && head == n + 1 ==> n >= RESERVE_BLOCK_COUNT
  {
    ReserveKeepsSpare(g, head, tail, n);
    ReserveRefuses(g, head, tail, n);
    ReserveIsRoom(g, head, tail, n);
    UsedIsDistance(g, head, Reserve(g, head, tail, n).tail);
  }

  // ----- usage

  lemma Scale(a: int, b: int, c: int)
    requires a <= b && c >= 0
    ensures a * c <= b * c
  {
    assert b * c == a * c + (b - a) * c;
  }

  lemma Percent(used: nat, cap: nat)
    requires cap > 100 && used <= cap
    ensures 0 <= used * 100 / cap <= 100
    ensures used * 100 / cap == 100 <==> used == cap
    ensures used * 100 / cap * cap <= used * 100 < (used * 100 / cap + 1) * cap
  {
    var q := used * 100 / cap;
    assert q * cap <= used * 100 < (q + 1) * cap;
    if q > 100 {
      Scale(101, q, cap);
    }
    if used < cap && q >= 100 {
      Scale(100, q, cap);
    }
    if used == cap && q < 100 {
      Scale(q + 1, 100, cap);
    }
  }

  /**
   Usage is the number of used slots in percent of all usable ones, rounded down. The documented range 0..99 of
   mq_get_usage is kept exactly while a slot is free.
   */
  lemma UsageRange(g: Geo, head: nat, tail: nat)
    requires GoodGeo(g) && Positions(g, head, tail)
    ensures var u := Usage(g, head, tail); u * g.cap <= Dist(g, head, tail) * 100 < (u + 1) * g.cap
    ensures 0 <= Usage(g, head, tail) <= 100
    ensures Usage(g, head, tail) <= 99 <==> EmptyNodes(g, head, tail) > 0
  {
    UsedIsDistance(g, head, tail);
    Percent(UsedNodes(g, head, tail), g.cap);
  }

  /**
   Puts that do break it; RingRuns makes the calls. In a ring of 409 usable slots: put 151 slots, take them, put 109,
   put 150. The last put goes round, ends just below head, and usage reads 100.
   */
  lemma UsageCanReadOneHundred()
    ensures var g := Geo(24, 409);
      && GoodGeo(g)
      && Reserve(g, 0, 0, 151) == Reserved(0, 151)
      && Reserve(g, 151, 151, 109) == Reserved(151, 260)
      && Reserve(g, 151, 260, 150) == Reserved(0, 150)
      && Usage(g, 151, 150) == 100
  {
  }

  // ----- no position blocks a record for ever

  /**
   A record of n slots can be put into the empty ring from every position if and only if it leaves
   the reserve and takes less than half the array.
   */
  lemma EmptyRingTakes(g: Geo, n: nat)
    requires GoodGeo(g) && n > 0
    ensures (forall p :: 0 <= p < Slots(g) ==> Reserve(g, p, p, n).Reserved?) <==>
      n + RESERVE_BLOCK_COUNT <= g.cap && 2 * n < Slots(g)
  {
    if n + RESERVE_BLOCK_COUNT <= g.cap && 2 * n < Slots(g) {
      forall p: nat | p < Slots(g)
        ensures Reserve(g, p, p, n).Reserved?
      {
        ReserveRefuses(g, p, p, n);
      }
    } else if n + RESERVE_BLOCK_COUNT > g.cap {
      ReserveRefuses(g, 0, 0, n);
      assert Reserve(g, 0, 0, n).Full?;
    } else {
      ReserveRefuses(g, n, n, n);
      assert Reserve(g, n, n, n).Full?;
    }
  }
}
