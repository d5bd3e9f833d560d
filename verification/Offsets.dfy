/** Row offsets in flat buffers, as a product that proofs can hide. */
module Offsets {

  function Offset(t: nat, stride: nat): nat { t * stride }

  lemma OffsetApart(r: nat, r': nat, d: nat)
    requires r < r'
    ensures Offset(r, d) + d <= Offset(r', d)
  {
    assert (r + 1) * d <= r' * d;
  }

  lemma OffsetOrder(r: nat, r': nat, d: nat)
    requires r <= r'
    ensures Offset(r, d) <= Offset(r', d)
  {
  }

  lemma OffsetWider(r: nat, d: nat, d': nat)
    requires d <= d'
    ensures Offset(r, d) <= Offset(r, d')
  {
    assert r * (d' - d) >= 0;
  }

  lemma OffsetSum(a: nat, b: nat, d: nat)
    ensures Offset(a, d) + Offset(b, d) == Offset(a + b, d)
  {
  }

  lemma OffsetNested(a: nat, n: nat, d: nat)
    ensures Offset(a, Offset(n, d)) == Offset(Offset(a, n), d)
  {
  }

  lemma RowParts(r: nat, n: nat)
    requires n > 0
    ensures r % n < n && Offset(r / n, n) + r % n == r
  {
  }

  lemma RowOf(b: nat, h: nat, n: nat)
    requires h < n
    ensures (Offset(b, n) + h) / n == b && (Offset(b, n) + h) % n == h
  {
    hide Offset;
    var x := Offset(b, n) + h;
    RowParts(x, n);
    if x / n < b { OffsetApart(x / n, b, n); }
    if b < x / n { OffsetApart(b, x / n, n); }
  }

  const WORD: nat := 0x1_0000_0000

  /** 32-bit index arithmetic. */
  function U32(x: nat): nat { x % WORD }

  lemma U32Small(x: nat)
    requires x < WORD
    ensures U32(x) == x
  {
  }
}
