/**
 Bytes in the places of words, low byte first, and the array of words that the hash fills; for any words
 whose places behave as a codec says.
 */
module Md5Pack {
  import opened Common

  /**
   pack: the word of four bytes; place: the byte in a place of a word; or: w | v << 8 * n; number: an integer
   as a word; xor and its counterpart on bytes.
   */
  datatype Codec<!W> = Codec(
    pack: (Byte, Byte, Byte, Byte) -> W,
    place: (W, nat) -> Byte,
    or: (W, Byte, nat) -> W,
    number: nat -> W,
    xor: (W, W) -> W,
    xorByte: (Byte, Byte) -> Byte)

  /** Byte n of a number. */
  function Digit(k: nat, n: nat): Byte {
    match n
    case 0 => k % 256
    case 1 => k / 256 % 256
    case 2 => k / 65536 % 256
    case _ => k / 16777216 % 256
  }

  /** Or-ing a byte into the first free place of a word puts it there. */
  ghost predicate FirstPlace<W>(k: Codec<W>) {
    forall v, n: nat :: n == 0 ==> k.or(k.pack(0, 0, 0, 0), v, n) == k.pack(v, 0, 0, 0)
  }

  ghost predicate SecondPlace<W>(k: Codec<W>) {
    forall a, v :: k.or(k.pack(a, 0, 0, 0), v, 1) == k.pack(a, v, 0, 0)
  }

  ghost predicate ThirdPlace<W>(k: Codec<W>) {
    forall a, b, v :: k.or(k.pack(a, b, 0, 0), v, 2) == k.pack(a, b, v, 0)
  }

  ghost predicate FourthPlace<W>(k: Codec<W>) {
    forall a, b, c, v :: k.or(k.pack(a, b, c, 0), v, 3) == k.pack(a, b, c, v)
  }

  ghost predicate Unpacks<W(!new)>(k: Codec<W>) {
    forall w :: k.pack(k.place(w, 0), k.place(w, 1), k.place(w, 2), k.place(w, 3)) == w
  }

  ghost predicate Numbers<W>(k: Codec<W>) {
    forall n: nat :: n < 0x1_0000_0000 ==> k.number(n) == k.pack(Digit(n, 0), Digit(n, 1), Digit(n, 2), Digit(n, 3))
  }

  /** Exclusive or with a repeated byte works on the places. */
  ghost predicate Masks<W>(k: Codec<W>) {
    forall a, b, c, d, m :: k.xor(k.pack(a, b, c, d), k.pack(m, m, m, m))
      == k.pack(k.xorByte(a, m), k.xorByte(b, m), k.xorByte(c, m), k.xorByte(d, m))
  }

  /** What the program relies on. */
  ghost predicate Lawful<W(!new)>(k: Codec<W>) {
    FirstPlace(k) && SecondPlace(k) && ThirdPlace(k) && FourthPlace(k) && Unpacks(k) && Numbers(k) && Masks(k)
  }

  function ByteAt(s: seq<Byte>, j: nat): Byte {
    if j < |s| then s[j] else 0
  }

  /** Word i of a byte string; bytes behind its end count as 0. */
  function WordAt<W>(k: Codec<W>, s: seq<Byte>, i: nat): W {
    k.pack(ByteAt(s, 4 * i), ByteAt(s, 4 * i + 1), ByteAt(s, 4 * i + 2), ByteAt(s, 4 * i + 3))
  }

  /** One more byte, or-ed into its word, is one more byte of the string. */
  lemma PackByte<W(!new)>(k: Codec<W>, s: seq<Byte>, v: Byte)
    requires Lawful(k)
    ensures k.or(WordAt(k, s, |s| / 4), v, |s| % 4) == WordAt(k, s + [v], |s| / 4)
  {
    assert |s| == 4 * (|s| / 4) + |s| % 4;
  }

  lemma OtherWord<W>(k: Codec<W>, s: seq<Byte>, v: Byte, i: nat)
    requires i != |s| / 4
    ensures WordAt(k, s + [v], i) == WordAt(k, s, i)
  {
  }

  lemma NoBytes<W>(k: Codec<W>, i: nat)
    ensures WordAt(k, [], i) == k.pack(0, 0, 0, 0)
  {
  }

  // ----- the array

  /** A place that was never written reads as 0. */
  function At<W>(k: Codec<W>, p: seq<W>, i: nat): W {
    if i < |p| then p[i] else k.pack(0, 0, 0, 0)
  }

  function Blank<W>(k: Codec<W>, n: nat): (r: seq<W>)
    ensures |r| == n && forall i :: 0 <= i < n ==> r[i] == k.pack(0, 0, 0, 0)
  {
    seq(n, _ => k.pack(0, 0, 0, 0))
  }

  /** p[i] = w, which makes the array longer if need be. */
  function Store<W>(k: Codec<W>, p: seq<W>, i: nat, w: W): (r: seq<W>)
    ensures |r| == if i < |p| then |p| else i + 1
    ensures forall j: nat {:trigger At(k, r, j)} :: At(k, r, j) == if j == i then w else At(k, p, j)
  {
    if i < |p| then p[i := w] else p + Blank(k, i - |p|) + [w]
  }

  ghost predicate Packs<W>(k: Codec<W>, p: seq<W>, s: seq<Byte>) {
    forall i: nat {:trigger At(k, p, i)} :: At(k, p, i) == WordAt(k, s, i)
  }

  /** p[c >> 5] |= v << (c % 32), with c the number of bits before v. */
  method OrInto<W(!new)>(k: Codec<W>, p: seq<W>, c: nat, v: Byte, ghost s: seq<Byte>) returns (r: seq<W>)
    requires Lawful(k) && c == 8 * |s| && Packs(k, p, s)
    ensures Packs(k, r, s + [v]) && |r| == if |s| / 4 < |p| then |p| else |s| / 4 + 1
  {
    var i, n := c / 32, c % 32 / 8;
    assert i == |s| / 4 && n == |s| % 4;
    PackByte(k, s, v);
    r := Store(k, p, i, k.or(At(k, p, i), v, n));
    forall j: nat
      ensures At(k, r, j) == WordAt(k, s + [v], j)
    {
      if j != i {
        OtherWord(k, s, v, j);
      }
    }
  }

  function Longer(a: nat, b: nat): nat {
    if a < b then b else a
  }

  method Rstr2Binl<W(!new)>(k: Codec<W>, b: seq<Byte>) returns (a: seq<W>)
    requires Lawful(k)
    ensures Packs(k, a, b) && |a| == (|b| + 3) / 4
  {
    a := Blank(k, |b| / 4);
    forall i: nat
      ensures At(k, a, i) == WordAt(k, [], i)
    {
      NoBytes(k, i);
    }
    var c := 0;
    ghost var n := 0;
    assert b[..0] == [];
    while c < 8 * |b|
      invariant c == 8 * n && n <= |b|
      invariant Packs(k, a, b[..n])
      invariant |a| == Longer(|b| / 4, (n + 3) / 4)
      decreases |b| - n
    {
      assert b[..n + 1] == b[..n] + [b[n]];
      a := OrInto(k, a, c, b[c / 8], b[..n]);
      c, n := c + 8, n + 1;
    }
    assert b[..n] == b;
  }

  /** The bytes of words, one place after the other. */
  function BytesOf<W>(k: Codec<W>, p: seq<W>): seq<Byte> {
    if p == [] then []
    else BytesOf(k, p[..|p| - 1])
         + [k.place(p[|p| - 1], 0), k.place(p[|p| - 1], 1), k.place(p[|p| - 1], 2), k.place(p[|p| - 1], 3)]
  }

  lemma {:induction false} BytesLength<W>(k: Codec<W>, p: seq<W>)
    ensures |BytesOf(k, p)| == 4 * |p|
  {
    if p != [] {
      BytesLength(k, p[..|p| - 1]);
    }
  }

  /** Packing the bytes of words gives the words back. */
  lemma {:induction false} BytesPack<W(!new)>(k: Codec<W>, p: seq<W>, i: nat)
    requires Lawful(k)
    ensures WordAt(k, BytesOf(k, p), i) == At(k, p, i)
  {
    BytesLength(k, p);
    if p != [] {
      var n := |p| - 1;
      BytesLength(k, p[..n]);
      if i < n {
        BytesPack(k, p[..n], i);
      }
    }
  }

  lemma {:induction false} BytesAt<W>(k: Codec<W>, p: seq<W>, j: nat)
    requires j < 4 * |p|
    ensures j < |BytesOf(k, p)| && BytesOf(k, p)[j] == k.place(p[j / 4], j % 4)
  {
    var n := |p| - 1;
    BytesLength(k, p);
    BytesLength(k, p[..n]);
    if j < 4 * n {
      BytesAt(k, p[..n], j);
    }
  }

  method Binl2Rstr<W(!new)>(k: Codec<W>, b: seq<W>) returns (a: seq<Byte>)
    ensures a == BytesOf(k, b)
  {
    BytesLength(k, b);
    a := [];
    var c := 0;
    ghost var n := 0;
    while c < |b| * 32
      invariant c == 8 * n && n <= 4 * |b|
      invariant a == BytesOf(k, b)[..n]
      decreases 4 * |b| - n
    {
      BytesAt(k, b, n);
      a := a + [k.place(b[c / 32], c % 32 / 8)];
      c, n := c + 8, n + 1;
    }
  }
}
