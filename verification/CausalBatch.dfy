/** Causal attention of a batch: the CPU loop, the fused launch in grid chunks, and the loop of single queries.
    Query b sees seqBase + b positions, and row r of a batch is head r % n of query r / n. */
module CausalBatch {
  import opened Offsets
  import opened Softmax

  const MAX_GRID_Y: nat := 65535

  datatype Heads = Heads(n: nat, kv: nat, dim: nat) {
    predicate Valid() {
      0 < n && 0 < kv && 0 < dim && n % kv == 0
    }

    function Group(): nat
      requires Valid()
    {
      n / kv
    }

    /** Cells of one query, and of one cached position. */
    function Query(): nat { Offset(n, dim) }

    function Position(): nat { Offset(kv, dim) }

    /** Query head h and its key-value head: all key-value heads serve equally many query heads, in order. */
    ghost function Serving(h: nat): nat
      requires Valid()
    {
      Offset(h, kv) / n
    }

    /** Where that head's cells lie in the cache. */
    ghost function KvView(data: seq<real>, h: nat): (v: View)
      requires Valid()
      ensures v.width == dim
    {
      View(data, Offset(Serving(h), dim), Offset(kv, dim), dim)
    }

    /** The kernels' and the CPU loop's view. */
    function GroupView(data: seq<real>, h: nat): View
      requires Valid()
    {
      View(data, Offset(if Group() == 0 then 0 else h / Group(), dim), Position(), dim)
    }

    /** It is the right one. */
    lemma KvHead(h: nat)
      requires Valid() && h < n
      ensures 0 < Group() && h / Group() == Serving(h) < kv
      ensures Offset(h / Group(), dim) + dim <= Position()
      ensures forall data :: GroupView(data, h) == KvView(data, h)
    {
      hide Offset;
      GroupOf(n, kv, h);
      OffsetApart(h / Group(), kv, dim);
    }
  }

  /** Head j of kv serves exactly the heads h of n with j / kv <= h / n < (j + 1) / kv. */
  lemma ServedBy(heads: Heads, data: seq<real>, h: nat, j: nat)
    requires heads.Valid() && h < heads.n
    ensures heads.KvView(data, h) == View(data, j * heads.dim, heads.kv * heads.dim, heads.dim) <==>
      j * heads.n <= h * heads.kv < (j + 1) * heads.n
  {
    Quotient(h * heads.kv, heads.n, j);
    if j < heads.Serving(h) { OffsetApart(j, heads.Serving(h), heads.dim); }
    if heads.Serving(h) < j { OffsetApart(heads.Serving(h), j, heads.dim); }
  }

  lemma Quotient(x: nat, n: nat, j: nat)
    requires 0 < n
    ensures x / n == j <==> j * n <= x < (j + 1) * n
  {
    var q := x / n;
    assert x == q * n + x % n;
    if j < q { assert (j + 1) * n <= q * n; }
    if q < j { assert (q + 1) * n <= j * n; }
  }

  lemma GroupOf(n: nat, kv: nat, h: nat)
    requires 0 < kv && 0 < n && n % kv == 0 && h < n
    ensures 0 < n / kv && h / (n / kv) == Offset(h, kv) / n < kv
  {
    var g := n / kv;
    assert n == kv * g && g > 0;
    var j := h / g;
    Quotient(h, g, j);
    Apart(h, g, kv, j);
    Quotient(h * kv, n, j);
  }

  /** Group j of g heads, in kv-ths. */
  lemma Apart(h: nat, g: nat, kv: nat, j: nat)
    requires j * g <= h < (j + 1) * g && h < kv * g
    ensures j * (kv * g) <= h * kv < (j + 1) * (kv * g) && j < kv
  {
    assert j * (kv * g) == (j * g) * kv;
    assert (j + 1) * (kv * g) == ((j + 1) * g) * kv;
    Times(j * g, h, kv);
    Times(h + 1, (j + 1) * g, kv);
    if j >= kv { Times(kv, j, g); }
  }

  lemma Times(a: nat, b: nat, c: nat)
    requires a <= b
    ensures a * c <= b * c
  {
  }

  function Slice(data: seq<real>, at: nat, width: nat): (s: seq<real>)
    ensures |s| == width
    ensures at + width <= |data| ==> s == data[at..at + width]
  {
    seq(width, i requires 0 <= i < width => if at + i < |data| then data[at + i] else 0.0)
  }

  // ---------------------------------------------------------------------------------
  // What a batch has to compute
  // ---------------------------------------------------------------------------------

  /** One attention problem: queries from cell qPtr of q on, the cache, and how many positions query 0 sees. */
  datatype Batch = Batch(heads: Heads, q: seq<real>, qPtr: nat, k: seq<real>, v: seq<real>, seqBase: nat, scale: real) {
    predicate Valid(queries: nat) {
      && heads.Valid() && 0 < seqBase
      && qPtr + Offset(queries, heads.Query()) <= |q|
      && Offset(seqBase + queries - 1, heads.Position()) <= |k|
      && Offset(seqBase + queries - 1, heads.Position()) <= |v|
    }

    /** The same problem from query `first` on. */
    function From(first: nat): Batch {
      this.(qPtr := qPtr + Offset(first, heads.Query()), seqBase := seqBase + first)
    }

    /** Row r of the output, in a buffer whose row 0 starts at cell oPtr, is single-query attention of head r % n
        over the positions query r / n may see. */
    ghost predicate Row(exp: real -> real, cap: real -> real, out: seq<real>, oPtr: nat, r: nat)
      requires IsExp(exp) && heads.Valid() && 0 < seqBase
    {
      hide IsExp, Offset, Heads.KvView, RowDone;
      RowDone(exp, Slice(q, qPtr + Offset(r, heads.dim), heads.dim), heads.KvView(k, r % heads.n), heads.KvView(v, r % heads.n),
              seqBase + r / heads.n, scale, cap, out, oPtr + Offset(r, heads.dim))
    }

    ghost predicate Rows(exp: real -> real, cap: real -> real, out: seq<real>, oPtr: nat, rows: nat)
      requires IsExp(exp) && heads.Valid() && 0 < seqBase
    {
      forall r :: 0 <= r < rows ==> Row(exp, cap, out, oPtr, r)
    }
  }

  /** Row r of the problem shifted by `first` queries is row first * n + r. */
  lemma ShiftedRow(p: Batch, exp: real -> real, cap: real -> real, out: seq<real>, oPtr: nat, first: nat, r: nat)
    requires IsExp(exp) && p.heads.Valid() && 0 < p.seqBase
    ensures p.From(first).Row(exp, cap, out, oPtr + Offset(first, p.heads.Query()), r)
      == p.Row(exp, cap, out, oPtr, Offset(first, p.heads.n) + r)
  {
    hide IsExp, Offset, RowDone, Slice, Heads.KvView;
    var n, d := p.heads.n, p.heads.dim;
    OffsetNested(first, n, d);
    OffsetSum(Offset(first, n), r, d);
    RowParts(r, n);
    OffsetSum(first, r / n, n);
    RowOf(first + r / n, r % n, n);
  }

  /** Writing one row leaves the others. */
  lemma RowSurvives(p: Batch, exp: real -> real, cap: real -> real, out: seq<real>, out': seq<real>, oPtr: nat, r: nat, w: nat)
    requires IsExp(exp) && p.heads.Valid() && 0 < p.seqBase && r != w
    requires p.Row(exp, cap, out, oPtr, r) && OnlyRow(out, out', oPtr + Offset(w, p.heads.dim), p.heads.dim)
    ensures p.Row(exp, cap, out', oPtr, r)
  {
    hide IsExp, Offset, HeadOut, Slice;
    if r < w { OffsetApart(r, w, p.heads.dim); } else { OffsetApart(w, r, p.heads.dim); }
  }

  /** Writing behind the rows leaves them too. */
  lemma RowBefore(p: Batch, exp: real -> real, cap: real -> real, out: seq<real>, out': seq<real>, oPtr: nat, r: nat, rows: nat, at: nat, width: nat)
    requires IsExp(exp) && p.heads.Valid() && 0 < p.seqBase && r < rows && oPtr + Offset(rows, p.heads.dim) <= at
    requires p.Row(exp, cap, out, oPtr, r) && OnlyRow(out, out', at, width)
    ensures p.Row(exp, cap, out', oPtr, r)
  {
    hide IsExp, Offset, HeadOut, Slice;
    OffsetApart(r, rows, p.heads.dim);
  }

  /** Two buffers that solve the same problem agree on every cell. */
  lemma SolutionsAgree(p: Batch, exp: real -> real, cap: real -> real, a: seq<real>, aPtr: nat, b: seq<real>, bPtr: nat, rows: nat, j: nat)
    requires IsExp(exp) && p.heads.Valid() && 0 < p.seqBase && j < Offset(rows, p.heads.dim)
    requires p.Rows(exp, cap, a, aPtr, rows) && p.Rows(exp, cap, b, bPtr, rows)
    ensures aPtr + j < |a| && bPtr + j < |b| && a[aPtr + j] == b[bPtr + j]
  {
    hide IsExp, Offset, HeadOut, Slice;
    var d := p.heads.dim;
    RowParts(j, d);
    var r, i := j / d, j % d;
    if r >= rows { OffsetOrder(rows, r, d); }
    assert p.Row(exp, cap, a, aPtr, r) && p.Row(exp, cap, b, bPtr, r);
    var h := HeadOut(exp, Slice(p.q, p.qPtr + Offset(r, d), d), p.heads.KvView(p.k, r % p.heads.n),
                     p.heads.KvView(p.v, r % p.heads.n), p.seqBase + r / p.heads.n, p.scale, cap, i);
    assert a[aPtr + Offset(r, d) + i] == h && b[bPtr + Offset(r, d) + i] == h;
  }

  /** One more row. */
  lemma RowsGrow(p: Batch, exp: real -> real, cap: real -> real, out: seq<real>, out': seq<real>, oPtr: nat, rows: nat)
    requires IsExp(exp) && p.heads.Valid() && 0 < p.seqBase
    requires p.Rows(exp, cap, out, oPtr, rows) && p.Row(exp, cap, out', oPtr, rows)
    requires OnlyRow(out, out', oPtr + Offset(rows, p.heads.dim), p.heads.dim)
    ensures p.Rows(exp, cap, out', oPtr, rows + 1)
  {
    hide IsExp, Offset, OnlyRow, Batch.Row;
    forall r | 0 <= r < rows ensures p.Row(exp, cap, out', oPtr, r) {
      RowSurvives(p, exp, cap, out, out', oPtr, r, rows);
    }
  }

  /** The rows of the first queries and those of the shifted rest are all rows. */
  lemma RowsJoin(p: Batch, exp: real -> real, cap: real -> real, out: seq<real>, out': seq<real>, oPtr: nat, first: nat, rest: nat, width: nat)
    requires IsExp(exp) && p.heads.Valid() && 0 < p.seqBase
    requires p.Rows(exp, cap, out, oPtr, Offset(first, p.heads.n))
    requires OnlyRow(out, out', oPtr + Offset(first, p.heads.Query()), width)
    requires p.From(first).Rows(exp, cap, out', oPtr + Offset(first, p.heads.Query()), rest)
    ensures p.Rows(exp, cap, out', oPtr, Offset(first, p.heads.n) + rest)
  {
    hide IsExp, Offset, OnlyRow, Batch.Row;
    var done := Offset(first, p.heads.n);
    OffsetNested(first, p.heads.n, p.heads.dim);
    forall r | 0 <= r < done + rest ensures p.Row(exp, cap, out', oPtr, r) {
      if r < done {
        RowBefore(p, exp, cap, out, out', oPtr, r, done, oPtr + Offset(first, p.heads.Query()), width);
      } else {
        ShiftedRow(p, exp, cap, out', oPtr, first, r - done);
        assert p.From(first).Row(exp, cap, out', oPtr + Offset(first, p.heads.Query()), r - done);
      }
    }
  }

  /** A row inside a range of rows changes only that range. */
  lemma WithinRows(out: seq<real>, out': seq<real>, out'': seq<real>, oPtr: nat, r: nat, rows: nat, d: nat)
    requires OnlyRow(out, out', oPtr, Offset(rows, d)) && OnlyRow(out', out'', oPtr + Offset(r, d), d) && r < rows
    ensures OnlyRow(out, out'', oPtr, Offset(rows, d))
  {
    hide Offset;
    OffsetApart(r, rows, d);
  }

  /** Copying queries in and rows out keeps them solved. */
  lemma RowsMoved(p: Batch, p': Batch, exp: real -> real, cap: real -> real, out: seq<real>, oPtr: nat, out': seq<real>, oPtr': nat, queries: nat)
    requires IsExp(exp) && p.heads.Valid() && 0 < p.seqBase && p' == p.(q := p'.q, qPtr := p'.qPtr)
    requires Same(p.q, p.qPtr, p'.q, p'.qPtr, Offset(queries, p.heads.Query()))
    requires Same(out, oPtr, out', oPtr', Offset(queries, p.heads.Query()))
    requires p.Rows(exp, cap, out, oPtr, Offset(queries, p.heads.n))
    ensures p'.Rows(exp, cap, out', oPtr', Offset(queries, p.heads.n))
  {
    hide IsExp, Offset, Batch.Row, Same;
    forall r | 0 <= r < Offset(queries, p.heads.n) ensures p'.Row(exp, cap, out', oPtr', r) {
      RowMoved(p, p', exp, cap, out, oPtr, out', oPtr', queries, r);
    }
  }

  lemma RowMoved(p: Batch, p': Batch, exp: real -> real, cap: real -> real, out: seq<real>, oPtr: nat, out': seq<real>, oPtr': nat, queries: nat, r: nat)
    requires IsExp(exp) && p.heads.Valid() && 0 < p.seqBase && p' == p.(q := p'.q, qPtr := p'.qPtr) && r < Offset(queries, p.heads.n)
    requires Same(p.q, p.qPtr, p'.q, p'.qPtr, Offset(queries, p.heads.Query()))
    requires Same(out, oPtr, out', oPtr', Offset(queries, p.heads.Query()))
    requires p.Row(exp, cap, out, oPtr, r)
    ensures p'.Row(exp, cap, out', oPtr', r)
  {
    hide IsExp, Offset, HeadOut, RowDone, Same, Slice;
    var d, len := p.heads.dim, Offset(queries, p.heads.Query());
    OffsetNested(queries, p.heads.n, d);
    OffsetApart(r, Offset(queries, p.heads.n), d);
    SameSlices(p.q, p.qPtr, p'.q, p'.qPtr, len, Offset(r, d), d);
    SameRow(exp, Slice(p.q, p.qPtr + Offset(r, d), d), p.heads.KvView(p.k, r % p.heads.n), p.heads.KvView(p.v, r % p.heads.n),
            p.seqBase + r / p.heads.n, p.scale, cap, out, oPtr, out', oPtr', len, Offset(r, d));
  }

  /** Two buffers hold the same `len` cells. */
  ghost predicate Same(a: seq<real>, aPtr: nat, b: seq<real>, bPtr: nat, len: nat) {
    && aPtr + len <= |a| && bPtr + len <= |b|
    && a[aPtr..aPtr + len] == b[bPtr..bPtr + len]
  }

  lemma SameBack(a: seq<real>, aPtr: nat, b: seq<real>, bPtr: nat, len: nat)
    requires Same(a, aPtr, b, bPtr, len)
    ensures Same(b, bPtr, a, aPtr, len)
  {
  }

  lemma SameSlices(a: seq<real>, aPtr: nat, b: seq<real>, bPtr: nat, len: nat, at: nat, width: nat)
    requires Same(a, aPtr, b, bPtr, len) && at + width <= len
    ensures Slice(a, aPtr + at, width) == Slice(b, bPtr + at, width)
  {
    hide Slice;
    SubSlice(a, aPtr, len, at, width);
    SubSlice(b, bPtr, len, at, width);
  }

  lemma SubSlice(a: seq<real>, p: nat, len: nat, at: nat, width: nat)
    requires p + len <= |a| && at + width <= len
    ensures a[p..p + len][at..at + width] == a[p + at..p + at + width]
  {
    var s, t := a[p..p + len][at..at + width], a[p + at..p + at + width];
    forall i | 0 <= i < width ensures s[i] == t[i] {
      assert s[i] == a[p..p + len][at + i] == a[p + (at + i)];
    }
  }

  lemma SameRow(exp: real -> real, q: seq<real>, k: View, v: View, n: nat, scale: real, cap: real -> real,
                out: seq<real>, oPtr: nat, out': seq<real>, oPtr': nat, len: nat, at: nat)
    requires IsExp(exp) && n > 0 && |q| == k.width && at + v.width <= len && Same(out, oPtr, out', oPtr', len)
    requires RowDone(exp, q, k, v, n, scale, cap, out, oPtr + at)
    ensures RowDone(exp, q, k, v, n, scale, cap, out', oPtr' + at)
  {
    hide IsExp, HeadOut;
    forall i | 0 <= i < v.width ensures out'[oPtr' + at + i] == HeadOut(exp, q, k, v, n, scale, cap, i) {
      assert out[oPtr + at + i] == out[oPtr..oPtr + len][at + i] == out'[oPtr'..oPtr' + len][at + i];
    }
  }

  // ---------------------------------------------------------------------------------
  // CPU
  // ---------------------------------------------------------------------------------

  datatype CpuResult = CpuDone | BadBatch | ShortQuery | ShortCache | ShortScores | NotDivisible

  predicate CpuAccepts(dst: nat, q: nat, k: nat, v: nat, scores: nat, pastLen: nat, batch: int, heads: Heads) {
    && 1 <= batch && heads.kv > 0 && heads.n % heads.kv == 0 && pastLen + batch <= scores
    && Offset(batch, heads.Query()) <= dst && Offset(batch, heads.Query()) <= q
    && Offset(pastLen + batch, heads.Position()) <= k && Offset(pastLen + batch, heads.Position()) <= v
  }

  method AttentionScoresBatchCausalInto(exp: real -> real, dst: array<real>, q: seq<real>, k: seq<real>, v: seq<real>, scores: array<real>,
                                        pastLen: nat, batch: int, heads: Heads, scale: real) returns (r: CpuResult)
    requires IsExp(exp) && dst != scores && 0 < heads.kv
    modifies dst, scores
    ensures r == CpuDone <==> CpuAccepts(dst.Length, |q|, |k|, |v|, scores.Length, pastLen, batch, heads)
    ensures r != CpuDone ==> dst[..] == old(dst[..])
    ensures r == CpuDone ==> OnlyRow(old(dst[..]), dst[..], 0, Offset(batch, heads.Query()))
    ensures r == CpuDone && heads.Valid() ==>
      Batch(heads, q, 0, k, v, pastLen + 1, scale).Rows(exp, Identity, dst[..], 0, Offset(batch, heads.n))
  {
    hide IsExp, Offset, RowDone, OnlyRow, Batch.Rows;
    if batch < 1 { return BadBatch; }
    if dst.Length < Offset(batch, heads.Query()) || |q| < Offset(batch, heads.Query()) { return ShortQuery; }
    var total := pastLen + batch;
    if |k| < Offset(total, heads.Position()) || |v| < Offset(total, heads.Position()) { return ShortCache; }
    if scores.Length < total { return ShortScores; }
    if heads.n % heads.kv != 0 { return NotDivisible; }
    if heads.n == 0 || heads.dim == 0 { // no cells, so the loops write none
      NothingWritten(dst[..], 0, Offset(batch, heads.Query()));
      return CpuDone;
    }
    ghost var p := Batch(heads, q, 0, k, v, pastLen + 1, scale);
    NoRows(p, exp, Identity, dst[..], 0, Offset(batch, heads.Query()));
    for b := 0 to batch
      invariant p.Rows(exp, Identity, dst[..], 0, Offset(b, heads.n))
      invariant OnlyRow(old(dst[..]), dst[..], 0, Offset(batch, heads.Query()))
    {
      for h := 0 to heads.n
        invariant p.Rows(exp, Identity, dst[..], 0, Offset(b, heads.n) + h)
        invariant OnlyRow(old(dst[..]), dst[..], 0, Offset(batch, heads.Query()))
      {
        HeadRow(exp, Identity, dst, q, k, v, scores, pastLen, b, batch, heads, scale, h, old(dst[..]));
      }
      NextQuery(b, heads.n);
    }
    r := CpuDone;
  }

  lemma NothingWritten(out: seq<real>, at: nat, width: nat)
    ensures OnlyRow(out, out, at, width)
  {
  }

  lemma NextQuery(b: nat, n: nat)
    ensures Offset(b, n) + n == Offset(b + 1, n)
  {
  }

  lemma NoRows(p: Batch, exp: real -> real, cap: real -> real, out: seq<real>, oPtr: nat, width: nat)
    requires IsExp(exp) && p.heads.Valid() && 0 < p.seqBase
    ensures p.Rows(exp, cap, out, oPtr, Offset(0, p.heads.n)) && OnlyRow(out, out, oPtr, width)
  {
  }

  /** Cells of query b, head h. */
  lemma RowCells(heads: Heads, b: nat, h: nat, queries: nat)
    requires h < heads.n && b < queries
    ensures Offset(b, heads.n) + h < Offset(queries, heads.n)
    ensures Offset(b, heads.Query()) + Offset(h, heads.dim) == Offset(Offset(b, heads.n) + h, heads.dim)
    ensures Offset(Offset(b, heads.n) + h, heads.dim) + heads.dim <= Offset(queries, heads.Query()) == Offset(Offset(queries, heads.n), heads.dim)
  {
    hide Offset;
    OffsetApart(b, queries, heads.n);
    OffsetNested(b, heads.n, heads.dim);
    OffsetNested(queries, heads.n, heads.dim);
    OffsetSum(Offset(b, heads.n), h, heads.dim);
    OffsetApart(Offset(b, heads.n) + h, Offset(queries, heads.n), heads.dim);
  }

  /** Head h of query b with the reference algorithm. */
  method HeadRow(exp: real -> real, cap: real -> real, dst: array<real>, q: seq<real>, k: seq<real>, v: seq<real>, scores: array<real>,
                 pastLen: nat, b: nat, batch: nat, heads: Heads, scale: real, h: nat, ghost first: seq<real>)
    requires IsExp(exp) && dst != scores && heads.Valid() && h < heads.n && b < batch && pastLen + batch <= scores.Length
    requires Offset(batch, heads.Query()) <= dst.Length && Offset(batch, heads.Query()) <= |q|
    requires Offset(pastLen + batch, heads.Position()) <= |k| && Offset(pastLen + batch, heads.Position()) <= |v|
    requires Batch(heads, q, 0, k, v, pastLen + 1, scale).Rows(exp, cap, dst[..], 0, Offset(b, heads.n) + h)
    requires OnlyRow(first, dst[..], 0, Offset(batch, heads.Query()))
    modifies dst, scores
    ensures Batch(heads, q, 0, k, v, pastLen + 1, scale).Rows(exp, cap, dst[..], 0, Offset(b, heads.n) + h + 1)
    ensures OnlyRow(first, dst[..], 0, Offset(batch, heads.Query()))
  {
    hide IsExp, Offset, RowDone, OnlyRow, Batch.Rows;
    var causalEnd := pastLen + b + 1;
    RowCells(heads, b, h, batch);
    heads.KvHead(h);
    OffsetOrder(causalEnd, pastLen + batch, heads.Position());
    RowOf(b, h, heads.n);
    var off := Offset(b, heads.Query()) + Offset(h, heads.dim);
    ghost var was := dst[..];
    AttentionOneHead(exp, dst, off, Slice(q, off, heads.dim), heads.GroupView(k, h), heads.GroupView(v, h), scores, causalEnd, scale, cap);
    RowsGrow(Batch(heads, q, 0, k, v, pastLen + 1, scale), exp, cap, was, dst[..], 0, Offset(b, heads.n) + h);
    WithinRows(first, was, dst[..], 0, Offset(b, heads.n) + h, Offset(batch, heads.n), heads.dim);
  }
}
