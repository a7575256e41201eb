/** Division with remainder, and powers of two. */
module Arithmetic {

  lemma SmallDivision(x: nat, d: nat)
    requires x < d
    ensures x / d == 0
  {
  }

  lemma DivisionStep(x: nat, d: nat)
    requires d > 0
    ensures (x + d) / d == x / d + 1
  {
    var q, r := x / d, x % d;
    assert x == q * d + r;
    assert x + d == (q + 1) * d + r;
    QuotientIs(x + d, d, q + 1, r);
  }

  lemma AtLeastOnce(k: int, d: nat)
    requires k >= 1
    ensures k * d >= d
  {
    assert k * d == (k - 1) * d + d;
  }

  lemma QuotientIs(x: nat, d: nat, q: nat, r: nat)
    requires d > 0 && r < d && x == q * d + r
    ensures x / d == q && x % d == r
  {
    var q', r' := x / d, x % d;
    assert x == q' * d + r';
    assert (q - q') * d == q * d - q' * d;
    assert (q' - q) * d == q' * d - q * d;
    if q' < q {
      AtLeastOnce(q - q', d);
    } else if q' > q {
      AtLeastOnce(q' - q, d);
    }
  }

  function Pow2(n: nat): (p: nat)
    ensures p > 0
  {
    if n == 0 then 1 else 2 * Pow2(n - 1)
  }

  lemma PowWord()
    ensures Pow2(8) == 256 && Pow2(31) == 0x8000_0000 && Pow2(32) == 0x1_0000_0000
  {
    assert Pow2(8) == 256;
    assert Pow2(16) == 65536;
    assert Pow2(24) == 0x100_0000;
  }
}
