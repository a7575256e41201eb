/** The shared-memory ring as an object over a byte array: whole calls that do not overlap. */
module Ring {
  import opened Common
  import opened RingLayout
  import opened RingReserve
  import opened RingImage

  const BAD_ARGUMENT: int := -1
  const REFUSED: int := -2 // mq_put: no room; mq_get: the buffer is too small

  /** How a get's answer relates to the queue before and after it. */
  ghost predicate GetOutcome(before: seq<Record>, after: seq<Record>, bufSize: int, ret: int, r: Record) {
    if bufSize < 1 then ret == BAD_ARGUMENT && after == before
    else if before == [] then ret == 0 && after == []
    else
      && after == before[1..]
      && if |before[0].data| > bufSize then ret == REFUSED
         else ret == |before[0].data| > 0 && r == before[0]
  }

  class MmapQueue {
    const g: Geo
    const nodes: array<Byte>
    var headPos: nat
    var tailPos: nat
    var rwConflict: nat

    ghost predicate Valid()
      reads this, nodes
    {
      && Sized(nodes[..], g)
      && Positions(g, headPos, tailPos)
      && Decode(nodes[..], g, headPos, tailPos).Some?
    }

    /** The queued records, as a reader starting at head decodes them from the bytes. */
    ghost function Contents(): seq<Record>
      reads this, nodes
      requires Valid()
    {
      Decode(nodes[..], g, headPos, tailPos).value
    }

    ghost predicate AllClean()
      reads this, nodes
    {
      Clean(nodes[..], g, headPos, tailPos)
    }

    constructor (elementSize: nat, count: nat)
      requires 0 < elementSize && RESERVE_BLOCK_COUNT < count
      ensures Valid() && fresh(nodes) && Contents() == [] && AllClean()
      ensures headPos == tailPos == 0 && rwConflict == 0
      ensures g == Geo(HEADER + (elementSize + 7) / 8 * 8, count)
    {
      var ns := HEADER + (elementSize + 7) / 8 * 8;
      g := Geo(ns, count);
      nodes := new Byte[ns * (count + 1)](i => 0);
      headPos, tailPos, rwConflict := 0, 0, 0;
      new;
      OffIsProduct(g, Slots(g));
    }

    // ----- stores

    method Store(o: nat, bs: seq<Byte>)
      requires o + |bs| <= nodes.Length
      modifies nodes
      ensures nodes[..] == WriteAt(old(nodes[..]), o, bs)
    {
      for i := 0 to |bs|
        invariant nodes[..] == WriteAt(old(nodes[..]), o, bs[..i])
      {
        assert bs[..i + 1] == bs[..i] + [bs[i]];
        nodes[o + i] := bs[i];
      }
      assert bs[..|bs|] == bs;
    }

    method Load(o: nat) returns (v: nat)
      requires o + 4 <= nodes.Length
      ensures v == Read32(nodes[..], o)
    {
      v := nodes[o] as int + 256 * nodes[o + 1] as int + 65536 * nodes[o + 2] as int + 16777216 * nodes[o + 3] as int;
    }

    /** SQ_GET: the offset of slot p. */
    method Locate(p: nat) returns (o: nat)
      requires Sized(nodes[..], g) && p < Slots(g)
      ensures o == Off(g, p) && o + g.ns <= nodes.Length
    {
      o := p * g.ns;
      OffIsProduct(g, p);
      SlotFits(nodes[..], g, p);
    }

    /** SQ_NUM_NEEDED_NODES. */
    method SlotsFor(len: nat) returns (n: nat)
      requires g.ns > HEADER
      ensures n == Needed(g, len)
    {
      n := (len + HEADER + g.ns - 1) / g.ns;
      NeededIsMacro(g, len);
    }

    /** SQ_ADD_POS, for steps that do not pass the array's end. */
    method Advance(p: nat, n: nat) returns (q: nat)
      requires p < Slots(g) && p + n <= Slots(g)
      ensures q == After(g, p, n) < Slots(g)
    {
      q := (p + n) % Slots(g);
      AfterIsMacro(g, p, n);
    }

    /** SQ_EMPTY_NODES. */
    method FreeSlots() returns (n: int)
      requires Positions(g, headPos, tailPos)
      ensures n == EmptyNodes(g, headPos, tailPos) <= g.cap
    {
      n := (headPos + g.cap - tailPos) % Slots(g);
      EmptyNodesIsMacro(g, headPos, tailPos);
      UsedIsDistance(g, headPos, tailPos);
    }

    /** SQ_ADD_TAIL. */
    method AddTail(n: nat) returns (q: nat)
      requires tailPos < Slots(g) && n < Slots(g)
      ensures q == Wrap(tailPos + n, Slots(g))
    {
      q := (tailPos + n) % Slots(g);
      WrapIsRemainder(tailPos + n, Slots(g));
    }

    // ----- mq_put

    method Put(data: seq<Byte>, sec: nat, usec: nat) returns (ret: int)
      requires Valid() && sec < WORD && usec < WORD
      modifies this`tailPos, nodes
      ensures Valid()
      ensures ret == BAD_ARGUMENT <==> |data| == 0 || |data| > MAX_DATA_LENGTH
      ensures ret == REFUSED <==> ret != BAD_ARGUMENT && Reserve(g, headPos, old(tailPos), Needed(g, |data|)).Full?
      ensures ret == BAD_ARGUMENT || ret == REFUSED || ret == 0
      ensures ret == 0 ==>
        && Contents() == old(Contents()) + [Record(data, sec, usec)]
        && tailPos == Reserve(g, headPos, old(tailPos), Needed(g, |data|)).tail != headPos
        && nodes[..] == PutImage(old(nodes[..]), g, old(tailPos), Reserve(g, headPos, old(tailPos), Needed(g, |data|)),
                                 Record(data, sec, usec))
      ensures ret != 0 ==> nodes[..] == old(nodes[..]) && tailPos == old(tailPos)
      ensures old(AllClean()) ==> AllClean()
    {
      if |data| == 0 || |data| > MAX_DATA_LENGTH {
        return BAD_ARGUMENT;
      }
      ghost var r := Record(data, sec, usec);
      ghost var m := nodes[..];
      var oldTail: nat := tailPos;
      var n := SlotsFor(|data|);
      var free := FreeSlots();
      if free < n + RESERVE_BLOCK_COUNT {
        return REFUSED;
      }
      var idx: nat := oldTail;
      var newTail := AddTail(n);
      if newTail < oldTail {
        idx, newTail := 0, n;
        if headPos - 1 < n {
          return REFUSED;
        }
      }
      assert Reserve(g, headPos, oldTail, n) == Reserved(idx, newTail);
      PutSummary(m, g, headPos, oldTail, r);
      tailPos := newTail;
      if idx == 0 && oldTail != 0 {
        MarkSkips(oldTail);
      }
      WriteRecord(idx, data, sec, usec);
      assert nodes[..] == PutImage(m, g, oldTail, Reserved(idx, newTail), r);
      return 0;
    }

    /** The stores of mq_put for the record itself; the token comes last. */
    method WriteRecord(idx: nat, data: seq<Byte>, sec: nat, usec: nat)
      requires Sized(nodes[..], g) && idx < Slots(g) && 0 < |data| <= MAX_DATA_LENGTH && sec < WORD && usec < WORD
      requires Off(g, idx) + HEADER + |data| <= nodes.Length
      modifies nodes
      ensures nodes[..] == StoreRecord(old(nodes[..]), Off(g, idx), Record(data, sec, usec))
    {
      var o := Locate(idx);
      Store(o + 4, Word32(|data|));
      Store(o + 8, Word32(sec));
      Store(o + 12, Word32(usec));
      Store(o + HEADER, data);
      Store(o, Word32(TOKEN_HAS_DATA));
    }

    /** The do-while loop of mq_put: every slot from p to the array's end gets the skip token. */
    method MarkSkips(p: nat)
      requires Sized(nodes[..], g) && 0 < p < Slots(g)
      modifies nodes
      ensures nodes[..] == MarkSkipped(old(nodes[..]), g, p)
    {
      var s: nat := p;
      while s != 0
        invariant Sized(nodes[..], g) && s < Slots(g)
        invariant MarkSkipped(nodes[..], g, if s == 0 then Slots(g) else s) == MarkSkipped(old(nodes[..]), g, p)
        decreases if s == 0 then 0 else Slots(g) - s
      {
        var o := Locate(s);
        Store(o, Word32(TOKEN_SKIPPED));
        s := Advance(s, 1);
      }
    }

    // ----- mq_get

    /**
     Returns the length of the first record and the record, 0 when there is none, or REFUSED when
     the record is longer than the buffer; in that case the record is gone all the same.
     */
    method Get(bufSize: int) returns (ret: int, r: Record)
      requires Valid()
      modifies this`headPos, this`rwConflict, nodes
      ensures Valid()
      ensures GetOutcome(old(Contents()), Contents(), bufSize, ret, r)
      ensures if bufSize < 1 then headPos == old(headPos)
              else HeadMoves(old(nodes[..]), g, old(headPos), tailPos, headPos, old(Contents()))
      ensures nodes[..] == if ret == BAD_ARGUMENT || ret == REFUSED then old(nodes[..])
                           else ClearTokens(old(nodes[..]), g, old(headPos), headPos)
      ensures ret != REFUSED && old(AllClean()) ==> AllClean()
      ensures ret == REFUSED ==> !AllClean()
      ensures ret >= 0 ==> rwConflict == 0
    {
      r := Record([], 0, 0);
      if bufSize < 1 {
        return BAD_ARGUMENT, r;
      }
      ghost var m := nodes[..];
      var oldHead: nat := headPos;
      var head := Scan();
      if head == tailPos {
        headPos := head;
        assert nodes[..] == m;
        GetNothing(m, g, oldHead, tailPos);
        ClearRead(oldHead, head);
        rwConflict := 0;
        return 0, r;
      }
      FirstRecord(m, g, head, tailPos);
      GetSummary(m, g, oldHead, head, tailPos);
      RecordMovesHead(m, g, oldHead, head, tailPos);
      ret, r := TakeRecord(head, bufSize);
      if ret == REFUSED {
        StaleToken(nodes[..], g, head, headPos, tailPos);
      } else {
        ClearRead(oldHead, headPos);
        rwConflict := 0;
      }
    }

    /** The header and, if it fits the buffer, the payload of the record at slot head. */
    method CopyRecord(head: nat, len: nat, bufSize: int) returns (ret: int, r: Record)
      requires Sized(nodes[..], g) && head < Slots(g) && bufSize >= 1 && len == LengthAt(nodes[..], g, head) > 0
      requires Off(g, head) + HEADER + len <= nodes.Length
      ensures var first := RecordAt(nodes[..], g, head);
        if |first.data| > bufSize then ret == REFUSED else ret == |first.data| > 0 && r == first
    {
      var o := Locate(head);
      var sec := Load(o + 8);
      var usec := Load(o + 12);
      if len > bufSize {
        return REFUSED, Record([], sec, usec);
      }
      return len, Record(nodes[o + HEADER..o + HEADER + len], sec, usec);
    }

    /** The middle of mq_get: head_pos moves behind the record at slot head, then the bytes are copied. */
    method TakeRecord(head: nat, bufSize: int) returns (ret: int, r: Record)
      requires Sized(nodes[..], g) && Positions(g, head, tailPos) && head != tailPos && bufSize >= 1
      requires Decode(nodes[..], g, head, tailPos).Some? && Token(nodes[..], g, head) == TOKEN_HAS_DATA
      modifies this`headPos
      ensures headPos == After(g, head, Needed(g, LengthAt(nodes[..], g, head)))
      ensures var first := RecordAt(nodes[..], g, head);
        if |first.data| > bufSize then ret == REFUSED else ret == |first.data| > 0 && r == first
    {
      FirstRecord(nodes[..], g, head, tailPos);
      var len, n := ReadLength(head);
      var used := UsedBehind(head);
      if used < n {
        assert false;
      }
      headPos := Advance(head, n);
      ret, r := CopyRecord(head, len, bufSize);
    }

    /** The length of the record at slot head, and how many slots it takes. */
    method ReadLength(head: nat) returns (len: nat, n: nat)
      requires Sized(nodes[..], g) && head < Slots(g)
      ensures len == LengthAt(nodes[..], g, head) && n == Needed(g, len)
    {
      var o := Locate(head);
      len := Load(o + 4);
      n := SlotsFor(len);
    }

    /** SQ_USED_NODES2: the slots from head to the tail. */
    method UsedBehind(head: nat) returns (n: int)
      requires Positions(g, head, tailPos)
      ensures n == Dist(g, head, tailPos)
    {
      EmptyNodesIsMacro(g, head, tailPos);
      UsedIsDistance(g, head, tailPos);
      n := g.cap - (head + g.cap - tailPos) % Slots(g);
    }

    /**
     The scan of mq_get: the local head runs over skip marks up to a record or the tail. A slot
     that is reserved but not yet written cannot be met, because the calls here do not overlap.
     */
    method Scan() returns (head: nat)
      requires Valid()
      ensures head < Slots(g)
      ensures Dist(g, headPos, head) + Dist(g, head, tailPos) == Dist(g, headPos, tailPos)
      ensures Decode(nodes[..], g, head, tailPos) == Decode(nodes[..], g, headPos, tailPos)
      ensures head == SkipTo(nodes[..], g, headPos, tailPos)
      ensures head == tailPos || Token(nodes[..], g, head) == TOKEN_HAS_DATA
    {
      head := headPos;
      while tailPos != head
        invariant head < Slots(g)
        invariant Dist(g, headPos, head) + Dist(g, head, tailPos) == Dist(g, headPos, tailPos)
        invariant Decode(nodes[..], g, head, tailPos) == Decode(nodes[..], g, headPos, tailPos)
        invariant SkipTo(nodes[..], g, head, tailPos) == SkipTo(nodes[..], g, headPos, tailPos)
        decreases Dist(g, head, tailPos)
      {
        var o := Locate(head);
        var token := Load(o);
        if token == TOKEN_HAS_DATA {
          return;
        }
        if token == TOKEN_NO_DATA {
          assert false;
        }
        DistStep(g, head, tailPos, 1);
        head := Advance(head, 1);
      }
    }

    /** The last loop of mq_get: the tokens of all slots passed over or read are reset. */
    method ClearRead(oldHead: nat, newHead: nat)
      requires Sized(nodes[..], g) && oldHead < Slots(g) && newHead < Slots(g)
      modifies nodes
      ensures nodes[..] == ClearTokens(old(nodes[..]), g, oldHead, newHead)
    {
      var h: nat := oldHead;
      while h != newHead
        invariant Sized(nodes[..], g) && h < Slots(g)
        invariant ClearTokens(nodes[..], g, h, newHead) == ClearTokens(old(nodes[..]), g, oldHead, newHead)
        decreases Dist(g, h, newHead)
      {
        var o := Locate(h);
        Store(o, Word32(TOKEN_NO_DATA));
        DistStep(g, h, newHead, 1);
        h := Advance(h, 1);
      }
    }

    // ----- usage

    method UsedBlocks() returns (n: int)
      requires Valid()
      ensures n == Dist(g, headPos, tailPos) && (n == 0 <==> headPos == tailPos)
    {
      UsedIsDistance(g, headPos, tailPos);
      n := UsedNodes(g, headPos, tailPos);
    }

    method GetUsage() returns (percent: int)
      requires Valid()
      ensures 0 <= percent <= 100
      ensures percent * g.cap <= Dist(g, headPos, tailPos) * 100 < (percent + 1) * g.cap
      ensures percent <= 99 <==> Dist(g, headPos, tailPos) < g.cap
      ensures percent == Usage(g, headPos, tailPos)
    {
      UsedIsDistance(g, headPos, tailPos);
      UsageRange(g, headPos, tailPos);
      percent := Usage(g, headPos, tailPos);
    }
  }
}
