/** Causal batch attention on the device: the grid-chunked fused launch, single queries, and the fallback between them. */
module DeviceAttention {
  import opened Offsets
  import opened Softmax
  import opened AttentionKernels
  import opened FlashAttention
  import opened CausalBatch

  /** The driver: the outcome of its c-th call, the block order of its c-th launch and what memory allocated by its c-th call
      happens to hold are fixed but unknown. The attention pool has room for poolQ query cells and poolSeq scores. */
  class Driver {
    const fate: nat -> bool
    const order: (nat, nat) -> seq<nat>
    const stale: (nat, nat) -> real
    const poolQ: nat
    const poolSeq: nat
    const hasFlash: bool
    const hasSoftmax: bool
    const hasSoftcap: bool
    const softcap: real
    var calls: nat

    constructor (fate: nat -> bool, order: (nat, nat) -> seq<nat>, stale: (nat, nat) -> real, poolQ: nat, poolSeq: nat,
                 hasFlash: bool, hasSoftmax: bool, hasSoftcap: bool, softcap: real)
      ensures this.fate == fate && this.order == order && this.stale == stale && calls == 0
      ensures this.poolQ == poolQ && this.poolSeq == poolSeq
      ensures this.hasFlash == hasFlash && this.hasSoftmax == hasSoftmax && this.hasSoftcap == hasSoftcap && this.softcap == softcap
    {
      this.fate, this.order, this.stale, this.poolQ, this.poolSeq := fate, order, stale, poolQ, poolSeq;
      this.hasFlash, this.hasSoftmax, this.hasSoftcap, this.softcap := hasFlash, hasSoftmax, hasSoftcap, softcap;
      calls := 0;
    }

    ghost predicate Schedules() {
      forall c, blocks :: Schedule(order(c, blocks), blocks)
    }

    function Cap(exp: real -> real): real -> real {
      if softcap > 0.0 then ScoreCap(exp, softcap) else Identity
    }

    /** No call made between two moments failed. */
    ghost predicate NoneFailed(from: nat, to: nat) {
      forall c :: from <= c < to ==> fate(c)
    }

    method Try() returns (ok: bool)
      modifies this`calls
      ensures calls == old(calls) + 1 && ok == fate(old(calls))
    {
      ok := fate(calls);
      calls := calls + 1;
    }
  }

  // ---------------------------------------------------------------------------------
  // The fused launch
  // ---------------------------------------------------------------------------------

  /** The 32-bit row starts of a launch do not wrap: the last row begins below 2^32. */
  predicate InPlace(heads: Heads, rows: nat) {
    rows > 0 ==> Offset(rows - 1, heads.dim) < WORD
  }

  /** Blocks of one launch, in the device's order. Every row is in its place if the last one starts below 2^32; whatever
      wraps, nothing is written from 2^32 - 1 cells and one row on. */
  method RunGrid(exp: real -> real, q: array<real>, qPtr: nat, k: seq<real>, v: seq<real>, out: array<real>, oPtr: nat,
                 seqBase: nat, heads: Heads, scale: real, n: nat, order: seq<nat>)
    requires IsExp(exp) && q != out && heads.dim <= THREADS && 0 < n
    requires Batch(heads, q[..], qPtr, k, v, seqBase, scale).Valid(n)
    requires oPtr + Offset(n, heads.Query()) <= out.Length
    requires seqBase + n - 1 <= INT_MAX && heads.Position() < WORD
    requires Schedule(order, Offset(n, heads.n))
    modifies out
    ensures InPlace(heads, Offset(n, heads.n)) ==>
      Batch(heads, q[..], qPtr, k, v, seqBase, scale).Rows(exp, Identity, out[..], oPtr, Offset(n, heads.n))
    ensures OnlyRow(old(out[..]), out[..], oPtr, Offset(n, heads.Query()))
    ensures OnlyRow(old(out[..]), out[..], oPtr, WORD - 1 + heads.dim)
  {
    hide IsExp, Offset, RowDone, OnlyRow, InPlace;
    ghost var p := Batch(heads, q[..], qPtr, k, v, seqBase, scale);
    ghost var qs := q[..];
    ghost var fits := InPlace(heads, Offset(n, heads.n));
    NothingWritten(out[..], oPtr, Offset(n, heads.Query()));
    NothingWritten(out[..], oPtr, WORD - 1 + heads.dim);
    for j := 0 to |order|
      invariant q[..] == qs
      invariant fits ==> forall i :: 0 <= i < j ==> p.Row(exp, Identity, out[..], oPtr, order[i])
      invariant OnlyRow(old(out[..]), out[..], oPtr, Offset(n, heads.Query()))
      invariant OnlyRow(old(out[..]), out[..], oPtr, WORD - 1 + heads.dim)
    {
      ghost var was := out[..];
      RunRow(exp, q, qPtr, k, v, out, oPtr, seqBase, heads, scale, n, order[j]);
      ghost var start := BlockStart(heads, order[j]);
      BlockIndices(heads, order[j], n);
      StartOf(heads, order[j]);
      WithinCells(old(out[..]), was, out[..], oPtr, Offset(n, heads.Query()), start, heads.dim);
      WithinCells(old(out[..]), was, out[..], oPtr, WORD - 1 + heads.dim, start, heads.dim);
      if fits {
        RowInPlace(heads, Offset(n, heads.n), order[j]);
        forall i | 0 <= i < j ensures p.Row(exp, Identity, out[..], oPtr, order[i]) {
          RowSurvives(p, exp, Identity, was, out[..], oPtr, order[i], order[j]);
        }
      }
    }
    if fits {
      forall r | 0 <= r < Offset(n, heads.n) ensures p.Row(exp, Identity, out[..], oPtr, r) {
        assert r in order;
        var i :| 0 <= i < |order| && order[i] == r;
      }
    }
  }

  /** Where block r, of head r % n and query r / n, starts in 32-bit arithmetic. */
  function BlockStart(heads: Heads, r: nat): nat
    requires heads.Valid()
  {
    RowStart(r / heads.n, heads.n, r % heads.n, heads.dim)
  }

  /** A row start never wraps upwards, and not at all below 2^32. */
  lemma StartOf(heads: Heads, r: nat)
    requires heads.Valid()
    ensures var start := BlockStart(heads, r);
      && start <= Offset(r, heads.dim) && start < WORD
      && (Offset(r, heads.dim) < WORD ==> start == Offset(r, heads.dim))
  {
    hide Offset, U32;
    RowParts(r, heads.n);
    U32Below(r);
    U32Below(Offset(U32(r), heads.dim));
    OffsetOrder(U32(r), r, heads.dim);
    OffsetAtLeast(r, heads.dim);
    if Offset(r, heads.dim) < WORD {
      U32Small(r);
      U32Small(Offset(r, heads.dim));
    }
  }

  lemma U32Below(x: nat)
    ensures U32(x) <= x && U32(x) < WORD
  {
  }

  lemma RowInPlace(heads: Heads, rows: nat, r: nat)
    requires InPlace(heads, rows) && r < rows
    ensures Offset(r, heads.dim) < WORD
  {
    hide Offset;
    OffsetOrder(r, rows - 1, heads.dim);
  }

  /** Cells inside a range change only that range. */
  lemma WithinCells(out: seq<real>, out': seq<real>, out'': seq<real>, oPtr: nat, width: nat, at: nat, d: nat)
    requires OnlyRow(out, out', oPtr, width) && OnlyRow(out', out'', oPtr + at, d) && at + d <= width
    ensures OnlyRow(out, out'', oPtr, width)
  {
  }

  /** The indices block r works with. */
  lemma BlockIndices(heads: Heads, r: nat, n: nat)
    requires heads.Valid() && r < Offset(n, heads.n)
    ensures r % heads.n < heads.n && r / heads.n < n && Offset(r / heads.n, heads.n) + r % heads.n == r
    ensures r <= Offset(r, heads.dim)
    ensures Offset(r, heads.dim) + heads.dim <= Offset(n, heads.Query()) == Offset(Offset(n, heads.n), heads.dim)
  {
    hide Offset;
    RowParts(r, heads.n);
    if n <= r / heads.n {
      OffsetOrder(n, r / heads.n, heads.n);
      assert false;
    }
    RowCells(heads, r / heads.n, r % heads.n, n);
    OffsetAtLeast(r, heads.dim);
  }

  lemma OffsetAtLeast(r: nat, d: nat)
    requires 0 < d
    ensures r <= Offset(r, d)
  {
  }

  /** Block r: its own row if the start does not wrap, and in any case only the cells at the wrapped start. */
  method RunRow(exp: real -> real, q: array<real>, qPtr: nat, k: seq<real>, v: seq<real>, out: array<real>, oPtr: nat,
                seqBase: nat, heads: Heads, scale: real, n: nat, r: nat)
    requires IsExp(exp) && q != out && heads.dim <= THREADS && 0 < n
    requires Batch(heads, q[..], qPtr, k, v, seqBase, scale).Valid(n)
    requires oPtr + Offset(n, heads.Query()) <= out.Length
    requires seqBase + n - 1 <= INT_MAX && heads.Position() < WORD
    requires r < Offset(n, heads.n)
    modifies out
    ensures Offset(r, heads.dim) < WORD ==> Batch(heads, q[..], qPtr, k, v, seqBase, scale).Row(exp, Identity, out[..], oPtr, r)
    ensures OnlyRow(old(out[..]), out[..], oPtr + BlockStart(heads, r), heads.dim)
  {
    hide IsExp, Offset, RowDone, OnlyRow, RowStart;
    BlockIndices(heads, r, n);
    StartOf(heads, r);
    heads.KvHead(r % heads.n);
    OffsetOrder(seqBase + r / heads.n, seqBase + n - 1, heads.Position());
    ghost var at := qPtr + BlockStart(heads, r);
    assert Slice(q[..], at, heads.dim) == q[at..at + heads.dim];
    AttnFlash(exp, q, qPtr, k, v, out, oPtr, seqBase, heads.dim, heads.Position(), heads.Group(), scale, r % heads.n, r / heads.n, heads.n);
    assert q[at..at + heads.dim] == old(q[at..at + heads.dim]);
  }

  /** Queries of the first launch. */
  function GridRows(queries: int): nat {
    if queries < 0 then 0 else if queries > 65535 then 65535 else queries
  }

  /** Launches of at most 65535 queries. */
  function Launches(queries: nat): nat { (queries + 65534) / 65535 }

  /** The fused launch, 65535 queries at a time with shifted sequence base and row pointers. It solves the batch if no row of
      its first, largest launch starts at 2^32 cells or beyond; otherwise the last cell of that launch is never written. */
  method LaunchFlash(driver: Driver, exp: real -> real, q: array<real>, k: seq<real>, v: seq<real>, out: array<real>,
                     seqBase: nat, queries: int, heads: Heads, scale: real) returns (rc: int)
    requires driver.Schedules() && IsExp(exp) && q != out
    requires queries > 0 ==> Batch(heads, q[..], 0, k, v, seqBase, scale).Valid(queries)
    requires queries > 0 ==> Offset(queries, heads.Query()) <= out.Length && seqBase + queries - 1 <= INT_MAX && heads.Position() < WORD
    modifies driver`calls, out
    ensures driver.calls >= old(driver.calls)
    ensures rc == 0 <==>
      && driver.hasFlash && heads.dim <= 256 && queries > 0
      && driver.NoneFailed(old(driver.calls), old(driver.calls) + Launches(queries))
    ensures rc == 0 ==> driver.calls == old(driver.calls) + Launches(queries)
    ensures rc != 0 && driver.hasFlash && heads.dim <= THREADS && queries > 0 ==> !driver.NoneFailed(old(driver.calls), driver.calls)
    ensures rc == 0 && InPlace(heads, Offset(GridRows(queries), heads.n)) ==>
      Batch(heads, q[..], 0, k, v, seqBase, scale).Rows(exp, Identity, out[..], 0, Offset(queries, heads.n))
    ensures rc == 0 && !InPlace(heads, Offset(GridRows(queries), heads.n)) ==>
      var last := Offset(GridRows(queries), heads.Query()) - 1; 0 <= last < out.Length && out[last] == old(out[last])
  {
    hide IsExp, Offset, RowDone, OnlyRow, Batch.Rows, Schedule, InPlace;
    if !driver.hasFlash || heads.dim > THREADS || queries <= 0 { return -1; }
    ghost var qs := q[..];
    ghost var p := Batch(heads, qs, 0, k, v, seqBase, scale);
    ghost var fits := InPlace(heads, Offset(GridRows(queries), heads.n));
    ghost var last := Offset(GridRows(queries), heads.Query()) - 1;
    LastCell(heads, queries, out.Length);
    NoRows(p, exp, Identity, out[..], 0, 0);
    var done := 0;
    ghost var made := 0;
    while done < queries
      invariant q[..] == qs && driver.calls == old(driver.calls) + made && done <= queries
      invariant done == if made * MAX_GRID_Y < queries then made * MAX_GRID_Y else queries
      invariant made > 0 ==> (made - 1) * MAX_GRID_Y < queries
      invariant driver.NoneFailed(old(driver.calls), driver.calls)
      invariant fits ==> p.Rows(exp, Identity, out[..], 0, Offset(done, heads.n))
      invariant !fits ==> out[last] == old(out[last])
    {
      var n := if queries - done > MAX_GRID_Y then MAX_GRID_Y else queries - done;
      var ok := driver.Try();
      if !ok { return -2; }
      ghost var was := out[..];
      LaunchFits(p, done, n, queries, out.Length);
      assert Schedule(driver.order(driver.calls, Offset(n, heads.n)), Offset(n, heads.n));
      RunGrid(exp, q, Offset(done, heads.Query()), k, v, out, Offset(done, heads.Query()), U32(seqBase + done), heads, scale, n,
              driver.order(driver.calls, Offset(n, heads.n)));
      assert q[..] == qs;
      if fits {
        SmallerInPlace(heads, Offset(n, heads.n), Offset(GridRows(queries), heads.n));
        RowsJoin(p, exp, Identity, was, out[..], 0, done, Offset(n, heads.n), Offset(n, heads.Query()));
      } else {
        LastStays(heads, was, out[..], queries, done, n);
      }
      OffsetSum(done, n, heads.n);
      done := done + n;
      made := made + 1;
    }
    rc := 0;
  }

  lemma SmallerInPlace(heads: Heads, rows: nat, more: nat)
    requires InPlace(heads, more) && rows <= more
    ensures InPlace(heads, rows)
  {
    hide Offset;
    if rows > 0 { OffsetOrder(rows - 1, more - 1, heads.dim); }
  }

  lemma LastCell(heads: Heads, queries: nat, out: nat)
    requires queries > 0 && heads.Valid() && Offset(queries, heads.Query()) <= out
    ensures 0 < Offset(GridRows(queries), heads.Query()) <= out
  {
    OffsetOrder(GridRows(queries), queries, heads.Query());
    OffsetOrder(1, GridRows(queries), heads.Query());
  }

  /** The last cell of a launch that does not fit is beyond everything its blocks write, and later launches start behind it. */
  lemma LastStays(heads: Heads, was: seq<real>, now: seq<real>, queries: nat, done: nat, n: nat)
    requires heads.Valid() && 0 < n == GridRows(queries - done) && done < queries && (done == 0 || GridRows(queries) <= done)
    requires !InPlace(heads, Offset(GridRows(queries), heads.n)) && Offset(queries, heads.Query()) <= |was|
    requires OnlyRow(was, now, Offset(done, heads.Query()), Offset(n, heads.Query()))
    requires OnlyRow(was, now, Offset(done, heads.Query()), WORD - 1 + heads.dim)
    ensures var last := Offset(GridRows(queries), heads.Query()) - 1; 0 <= last < |was| == |now| && now[last] == was[last]
  {
    hide Offset;
    LastCell(heads, queries, |was|);
    if done == 0 {
      var rows := Offset(n, heads.n);
      OffsetNested(n, heads.n, heads.dim);
      OffsetSum(rows - 1, 1, heads.dim);
      OffsetOne(heads.dim);
      OffsetZero(heads.Query());
    } else {
      OffsetOrder(GridRows(queries), done, heads.Query());
    }
  }

  lemma OffsetOne(d: nat)
    ensures Offset(1, d) == d
  {
  }

  lemma OffsetZero(d: nat)
    ensures Offset(0, d) == 0
  {
  }

  /** A chunk of the queries is a valid batch by itself. */
  lemma LaunchFits(p: Batch, done: nat, n: nat, queries: nat, out: nat)
    requires p.Valid(queries) && Offset(queries, p.heads.Query()) <= out && p.seqBase + queries - 1 <= INT_MAX
    requires done < queries && n == GridRows(queries - done) && p.qPtr == 0
    ensures 0 < n && done + n <= queries && U32(p.seqBase + done) == p.seqBase + done
    ensures p.From(done).Valid(n) && Offset(done, p.heads.Query()) + Offset(n, p.heads.Query()) <= out
    ensures p.seqBase + done + n - 1 <= INT_MAX && Offset(n, p.heads.n) <= Offset(GridRows(queries), p.heads.n)
  {
    hide Offset;
    OffsetSum(done, n, p.heads.Query());
    OffsetOrder(done + n, queries, p.heads.Query());
    OffsetOrder(p.seqBase + done + n - 1, p.seqBase + queries - 1, p.heads.Position());
    OffsetOrder(n, GridRows(queries), p.heads.n);
    U32Small(p.seqBase + done);
  }

  // ---------------------------------------------------------------------------------
  // Host entry points: upload, launch, download
  // ---------------------------------------------------------------------------------

  function Min(a: int, b: int): int { if a < b then a else b }

  /** One layer of the cache; its two sizes are C ints. */
  datatype KvLayer = KvLayer(k: seq<real>, v: seq<real>, maxSeq: nat, kvDim: nat) {
    predicate Valid() {
      |k| == |v| == Offset(maxSeq, kvDim) && maxSeq <= INT_MAX && kvDim <= INT_MAX
    }

    /** Positions up to seqLen, at the kernels' own stride, lie inside the cache. Rows that are wide enough make it so. */
    predicate Covers(heads: Heads, seqLen: int) {
      0 < seqLen <= maxSeq ==> Offset(seqLen, heads.Position()) <= |k|
    }

    /** Then so do shorter ones. */
    lemma CoversLess(heads: Heads, n: int, seqLen: int)
      requires Covers(heads, Min(n, maxSeq)) && seqLen <= n
      ensures Covers(heads, seqLen)
    {
      hide Offset, Heads.Position;
      if 0 < seqLen <= maxSeq { OffsetOrder(seqLen, Min(n, maxSeq), heads.Position()); }
    }

    lemma Reaches(heads: Heads, seqLen: nat)
      requires Valid() && seqLen <= maxSeq && heads.Position() <= kvDim
      ensures Offset(seqLen, heads.Position()) <= |k| && Covers(heads, seqLen)
    {
      hide Offset, Heads.Position;
      OffsetOrder(seqLen, maxSeq, heads.Position());
      OffsetWider(maxSeq, heads.Position(), kvDim);
    }
  }

  /** Copies `len` cells between host and device; a failed copy leaves the target as it was. */
  method Copy(driver: Driver, src: array<real>, from: nat, dst: array<real>, to: nat, len: nat) returns (ok: bool)
    requires src != dst && from + len <= src.Length && to + len <= dst.Length
    modifies driver`calls, dst
    ensures driver.calls == old(driver.calls) + 1 && ok == driver.fate(old(driver.calls))
    ensures ok ==> Same(src[..], from, dst[..], to, len)
    ensures OnlyRow(old(dst[..]), dst[..], to, len)
  {
    ok := driver.Try();
    if ok {
      forall j | 0 <= j < len {
        dst[to + j] := src[from + j];
      }
    }
  }

  /** Two allocations, one upload, the launches, one download. */
  function FusedCalls(n: nat): nat { 4 + Launches(n) }

  /** Batched fused attention; a non-zero code asks the caller for the single-query loop. The score cap plays no part. */
  method KvAttentionBatch(driver: Driver, exp: real -> real, layer: KvLayer, dst: array<real>, q: array<real>, n: int, pastLen: int,
                          heads: Heads, scale: real) returns (rc: int)
    requires driver.Schedules() && IsExp(exp) && layer.Valid() && q != dst
    requires n > 0 ==> Offset(n, heads.Query()) <= dst.Length && Offset(n, heads.Query()) <= q.Length
    modifies driver`calls, dst
    ensures driver.calls >= old(driver.calls)
    ensures rc == 0 <==>
      && FusedBatchRuns(driver, layer, n, pastLen, heads)
      && driver.NoneFailed(old(driver.calls), old(driver.calls) + FusedCalls(n))
    ensures rc == 0 && InPlace(heads, Offset(GridRows(n), heads.n)) ==>
      Batch(heads, q[..], 0, layer.k, layer.v, pastLen + 1, scale).Rows(exp, Identity, dst[..], 0, Offset(n, heads.n))
    ensures rc == 0 && !InPlace(heads, Offset(GridRows(n), heads.n)) ==>
      var last := Offset(GridRows(n), heads.Query()) - 1; 0 <= last < dst.Length && dst[last] == driver.stale(old(driver.calls) + 1, last)
  {
    hide IsExp, Offset, Batch.Rows, Schedule, Driver.NoneFailed, InPlace;
    if n <= 0 || pastLen < 0 || !heads.Valid() { return -11; }
    if !driver.hasFlash || heads.dim > THREADS { return -30; }
    if pastLen + n > layer.maxSeq || layer.kvDim != heads.Position() { return -2; }
    layer.Reaches(heads, pastLen + n);
    var c0 := driver.calls;
    var ok := driver.Try();
    CallFailed(driver, c0, c0, c0 + FusedCalls(n));
    if !ok { return -3; }
    ok := driver.Try();
    CallFailed(driver, c0, c0 + 1, c0 + FusedCalls(n));
    if !ok { return -3; }
    rc := UploadRunDownload(driver, exp, layer, dst, q, n, pastLen, heads, scale);
    AllocatedCalls(driver, c0, FusedCalls(n));
  }

  /** The batch between its allocations and the release of its buffers. */
  method UploadRunDownload(driver: Driver, exp: real -> real, layer: KvLayer, dst: array<real>, q: array<real>, n: nat, pastLen: nat,
                           heads: Heads, scale: real) returns (rc: int)
    requires driver.Schedules() && IsExp(exp) && q != dst && 0 < n && FusedBatchRuns(driver, layer, n, pastLen, heads)
    requires layer.Valid() && driver.calls >= 2
    requires Offset(pastLen + n, heads.Position()) <= |layer.k| && Offset(pastLen + n, heads.Position()) <= |layer.v|
    requires Offset(n, heads.Query()) <= dst.Length && Offset(n, heads.Query()) <= q.Length
    modifies driver`calls, dst
    ensures driver.calls >= old(driver.calls)
    ensures rc == 0 <==> driver.NoneFailed(old(driver.calls), old(driver.calls) + 2 + Launches(n))
    ensures rc == 0 && InPlace(heads, Offset(GridRows(n), heads.n)) ==>
      Batch(heads, q[..], 0, layer.k, layer.v, pastLen + 1, scale).Rows(exp, Identity, dst[..], 0, Offset(n, heads.n))
    ensures rc == 0 && !InPlace(heads, Offset(GridRows(n), heads.n)) ==>
      var last := Offset(GridRows(n), heads.Query()) - 1; 0 <= last < dst.Length && dst[last] == driver.stale(old(driver.calls) - 1, last)
  {
    hide IsExp, Offset, Batch.Rows, Schedule, Same, OnlyRow, Driver.NoneFailed, InPlace;
    ghost var host := q[..];
    var c := driver.calls;
    var cells, stale := Offset(n, heads.Query()), driver.stale;
    var dQ := new real[cells](i => stale(c - 2, i));
    var dOut := new real[cells](i => stale(c - 1, i));
    ghost var before := dOut[..];
    var ok := Copy(driver, q, 0, dQ, 0, cells);
    CallFailed(driver, c, c, c + 2 + Launches(n));
    if !ok { return -4; }
    rc := LaunchFlash(driver, exp, dQ, layer.k, layer.v, dOut, pastLen + 1, n, heads, scale);
    CallsPart(driver, c, c + 1, c + 1 + Launches(n), c + 2 + Launches(n));
    if rc != 0 { return -5; }
    ok := Copy(driver, dOut, 0, dst, 0, cells);
    CallFailed(driver, c, c + 1 + Launches(n), c + 2 + Launches(n));
    if !ok { return -4; }
    AllCalls(driver, c, Launches(n));
    assert q[..] == host;
    BatchHome(driver, exp, layer, q[..], dQ[..], before, dOut[..], dst[..], n, pastLen, heads, scale);
  }

  /** What the download brings home: the rows, or what memory held. */
  lemma BatchHome(driver: Driver, exp: real -> real, layer: KvLayer, q: seq<real>, dQ: seq<real>, before: seq<real>, dOut: seq<real>,
                  dst: seq<real>, n: nat, pastLen: nat, heads: Heads, scale: real)
    requires IsExp(exp) && 0 < n && heads.Valid() && |before| == |dOut| == Offset(n, heads.Query())
    requires Same(q, 0, dQ, 0, Offset(n, heads.Query())) && Same(dOut, 0, dst, 0, Offset(n, heads.Query()))
    requires InPlace(heads, Offset(GridRows(n), heads.n)) ==>
      Batch(heads, dQ, 0, layer.k, layer.v, pastLen + 1, scale).Rows(exp, Identity, dOut, 0, Offset(n, heads.n))
    requires !InPlace(heads, Offset(GridRows(n), heads.n)) ==>
      var last := Offset(GridRows(n), heads.Query()) - 1; 0 <= last < |dOut| && dOut[last] == before[last]
    ensures InPlace(heads, Offset(GridRows(n), heads.n)) ==>
      Batch(heads, q, 0, layer.k, layer.v, pastLen + 1, scale).Rows(exp, Identity, dst, 0, Offset(n, heads.n))
    ensures !InPlace(heads, Offset(GridRows(n), heads.n)) ==>
      var last := Offset(GridRows(n), heads.Query()) - 1; 0 <= last < |dst| && last < |before| && dst[last] == before[last]
  {
    hide IsExp, Offset, Batch.Rows, InPlace, Same;
    if InPlace(heads, Offset(GridRows(n), heads.n)) {
      SameBack(q, 0, dQ, 0, Offset(n, heads.Query()));
      RowsMoved(Batch(heads, dQ, 0, layer.k, layer.v, pastLen + 1, scale), Batch(heads, q, 0, layer.k, layer.v, pastLen + 1, scale),
                exp, Identity, dOut, 0, dst, 0, n);
    } else {
      SameCell(dOut, dst, Offset(n, heads.Query()), Offset(GridRows(n), heads.Query()) - 1);
    }
  }

  lemma SameCell(a: seq<real>, b: seq<real>, len: nat, i: nat)
    requires Same(a, 0, b, 0, len) && i < len
    ensures i < |a| && i < |b| && a[i] == b[i]
  {
    assert a[0..0 + len][i] == b[0..0 + len][i];
  }

  lemma AllocatedCalls(driver: Driver, c: nat, n: nat)
    requires driver.fate(c) && driver.fate(c + 1) && n >= 2
    ensures driver.NoneFailed(c, c + n) <==> driver.NoneFailed(c + 2, c + n)
  {
    if driver.NoneFailed(c + 2, c + n) {
      forall i | c <= i < c + n ensures driver.fate(i) {
        assert i == c || i == c + 1 || c + 2 <= i;
      }
    }
  }

  lemma CallFailed(driver: Driver, from: nat, c: nat, to: nat)
    requires from <= c < to
    ensures !driver.fate(c) ==> !driver.NoneFailed(from, to)
  {
  }

  lemma CallsPart(driver: Driver, from: nat, a: nat, b: nat, to: nat)
    requires from <= a <= b <= to
    ensures driver.NoneFailed(from, to) ==> driver.NoneFailed(a, b)
  {
  }

  lemma AllCalls(driver: Driver, c: nat, launches: nat)
    requires driver.fate(c) && driver.NoneFailed(c + 1, c + 1 + launches) && driver.fate(c + 1 + launches)
    ensures driver.NoneFailed(c, c + 2 + launches)
  {
    forall i | c <= i < c + 2 + launches ensures driver.fate(i) {
      assert i == c || c + 1 <= i < c + 1 + launches || i == c + 1 + launches;
    }
  }

  predicate FusedBatchRuns(driver: Driver, layer: KvLayer, n: int, pastLen: int, heads: Heads) {
    && 0 < n && 0 <= pastLen && heads.Valid() && driver.hasFlash && heads.dim <= 256
    && pastLen + n <= layer.maxSeq && layer.kvDim == heads.Position()
  }

  lemma NoCalls(driver: Driver, c: nat)
    ensures driver.NoneFailed(c, c)
  {
  }

  lemma OneCall(driver: Driver, from: nat, c: nat)
    requires from <= c
    ensures driver.NoneFailed(from, c + 1) <==> driver.NoneFailed(from, c) && driver.fate(c)
  {
  }

  lemma CallsJoin(driver: Driver, a: nat, b: nat, c: nat)
    requires a <= b <= c
    ensures driver.NoneFailed(a, c) <==> driver.NoneFailed(a, b) && driver.NoneFailed(b, c)
  {
  }

  lemma OneQuery(heads: Heads)
    ensures Offset(0, heads.n) == 0 && Offset(1, heads.n) == heads.n && Offset(1, heads.Query()) == heads.Query()
  {
  }

  /** Device memory for n cells, from the pool or allocated for this call. */
  method Allocate(driver: Driver, pooled: bool) returns (ok: bool)
    modifies driver`calls
    ensures driver.calls >= old(driver.calls) && (ok <==> driver.NoneFailed(old(driver.calls), driver.calls))
  {
    if pooled { return true; }
    ok := driver.Try();
  }

  /** Single-query attention with the fused kernel; a non-zero code asks for the separate kernels. */
  method FlashDevice(driver: Driver, exp: real -> real, layer: KvLayer, dst: array<real>, dOff: nat, q: array<real>, qOff: nat,
                     seqLen: nat, heads: Heads, scale: real) returns (rc: int)
    requires driver.Schedules() && IsExp(exp) && layer.Valid() && q != dst && heads.Valid() && heads.Query() <= INT_MAX
    requires 0 < seqLen <= layer.maxSeq && layer.Covers(heads, seqLen)
    requires qOff + heads.Query() <= q.Length && dOff + heads.Query() <= dst.Length
    modifies driver`calls, dst
    ensures driver.calls >= old(driver.calls)
    ensures OnlyRow(old(dst[..]), dst[..], dOff, heads.Query())
    ensures rc == 0 ==> Batch(heads, q[..], qOff, layer.k, layer.v, seqLen, scale).Rows(exp, Identity, dst[..], dOff, heads.n)
  {
    hide IsExp, Offset, RowDone, Batch.Rows, Schedule, Same, Driver.NoneFailed, OnlyRow, InPlace;
    NothingWritten(dst[..], dOff, heads.Query());
    if !driver.hasFlash || heads.dim > THREADS { return -1; }
    OneQuery(heads);
    OneInPlace(heads);
    ghost var host := q[..];
    var pooled := driver.poolQ >= heads.Query();
    var ok := Allocate(driver, pooled);
    if !ok { return -1; }
    ok := Allocate(driver, pooled);
    if !ok { return -1; }
    var cells := if pooled then driver.poolQ else heads.Query();
    var dQ, dDst := new real[cells], new real[cells];
    ok := Copy(driver, q, qOff, dQ, 0, heads.Query());
    if !ok { return -1; }
    SameBack(q[..], qOff, dQ[..], 0, heads.Query());
    rc := LaunchFlash(driver, exp, dQ, layer.k, layer.v, dDst, seqLen, 1, heads, scale);
    if rc != 0 { return; }
    ok := Copy(driver, dDst, 0, dst, dOff, heads.Query());
    if !ok { return -1; }
    assert q[..] == host;
    RowsMoved(Batch(heads, dQ[..], 0, layer.k, layer.v, seqLen, scale), Batch(heads, q[..], qOff, layer.k, layer.v, seqLen, scale),
              exp, Identity, dDst[..], 0, dst[..], dOff, 1);
  }

  /** One query of C int size has its rows in place. */
  lemma OneInPlace(heads: Heads)
    requires heads.Valid() && heads.Query() <= INT_MAX
    ensures InPlace(heads, Offset(GridRows(1), heads.n)) && heads.Position() <= heads.Query() && heads.dim <= heads.Query()
  {
    OffsetOrder(heads.n - 1, heads.n, heads.dim);
    OffsetOrder(heads.kv, heads.n, heads.dim);
    OffsetOrder(1, heads.n, heads.dim);
  }

  /** Softmax of one head's scores: by its kernel, or over the host where that is missing. */
  method SoftmaxStep(driver: Driver, exp: real -> real, dScores: array<real>, hScores: array<real>, seqLen: nat) returns (ok: bool)
    requires IsExp(exp) && 0 < seqLen <= dScores.Length && seqLen <= hScores.Length && dScores != hScores
    modifies driver`calls, dScores, hScores
    ensures driver.calls >= old(driver.calls) && (ok <==> driver.NoneFailed(old(driver.calls), driver.calls))
    ensures ok ==> IsSoftmax(exp, old(dScores[..seqLen]), dScores[..seqLen])
  {
    hide IsExp, IsSoftmax;
    ghost var s := dScores[..seqLen];
    if driver.hasSoftmax {
      ok := driver.Try();
      if ok { SoftmaxSingleThread(exp, dScores, seqLen); }
      return;
    }
    ok := Copy(driver, dScores, 0, hScores, 0, seqLen);
    if !ok { return; }
    assert hScores[0..0 + seqLen] == s;
    assert hScores[..seqLen] == s;
    SoftmaxSingleThread(exp, hScores, seqLen);
    ok := Copy(driver, hScores, 0, dScores, 0, seqLen);
    if ok {
      assert dScores[0..0 + seqLen] == hScores[0..0 + seqLen];
      assert dScores[..seqLen] == hScores[..seqLen];
    }
  }

  /** One head: scaled scores, the cap if there is one, softmax, weighted values. A failed launch stops it. */
  method HeadByKernels(driver: Driver, exp: real -> real, dQ: array<real>, qOff: nat, k: View, v: View, dScores: array<real>, hScores: array<real>,
                       dDst: array<real>, seqLen: nat, scale: real) returns (ok: bool)
    requires driver.Schedules() && IsExp(exp) && dQ != dScores && dDst != dScores && dDst != hScores && dScores != hScores && dQ != hScores && dQ != dDst
    requires 0 < seqLen <= dScores.Length && seqLen <= hScores.Length && seqLen <= INT_MAX && k.width == v.width <= INT_MAX
    requires k.Fits(seqLen) && v.Fits(seqLen) && qOff + k.width <= dQ.Length && qOff + v.width <= dDst.Length
    requires driver.softcap > 0.0 ==> driver.hasSoftcap
    modifies driver`calls, dScores, hScores, dDst
    ensures driver.calls >= old(driver.calls) && (ok <==> driver.NoneFailed(old(driver.calls), driver.calls))
    ensures ok ==> RowDone(exp, dQ[qOff..qOff + k.width], k, v, seqLen, scale, driver.Cap(exp), dDst[..], qOff)
    ensures OnlyRow(old(dDst[..]), dDst[..], qOff, v.width)
  {
    hide IsExp, IsSoftmax, Scores, RowDone, OnlyRow, Schedule, Driver.NoneFailed, ScoreCap, View.Fits, Weighted;
    ghost var c0, qs := driver.calls, dQ[qOff..qOff + k.width];
    NoCalls(driver, c0);
    NothingWritten(dDst[..], qOff, v.width);
    ok := driver.Try();
    OneCall(driver, c0, c0);
    if !ok { return; }
    assert Schedule(driver.order(driver.calls, Blocks(seqLen)), Blocks(seqLen));
    AttnQk(dQ, qOff, k, dScores, seqLen, scale, driver.order(driver.calls, Blocks(seqLen)));
    if driver.softcap > 0.0 {
      ok := driver.Try();
      OneCall(driver, c0, driver.calls - 1);
      if !ok { return; }
      assert Schedule(driver.order(driver.calls, Blocks(seqLen)), Blocks(seqLen));
      SoftcapKernel(exp, dScores, seqLen, driver.softcap, driver.order(driver.calls, Blocks(seqLen)));
      CappedScores(qs, k, seqLen, scale, driver.Cap(exp), dScores[..seqLen]);
    }
    assert dScores[..seqLen] == Scores(qs, k, seqLen, scale, driver.Cap(exp));
    ghost var c := driver.calls;
    ok := SoftmaxStep(driver, exp, dScores, hScores, seqLen);
    CallsJoin(driver, c0, c, driver.calls);
    if !ok { return; }
    ok := driver.Try();
    OneCall(driver, c0, driver.calls - 1);
    if !ok { return; }
    assert Schedule(driver.order(driver.calls, Blocks(v.width)), Blocks(v.width));
    AttnV(dScores, v, dDst, qOff, seqLen, driver.order(driver.calls, Blocks(v.width)));
    assert dQ[qOff..qOff + k.width] == qs;
    RowFromKernels(exp, qs, k, v, seqLen, scale, driver.Cap(exp), dScores[..seqLen], dDst[..], qOff);
  }

  /** The heads one after the other over one buffer of scores. */
  method HeadsByKernels(driver: Driver, exp: real -> real, dQ: array<real>, layer: KvLayer, dScores: array<real>, hScores: array<real>,
                        dDst: array<real>, seqLen: nat, heads: Heads, scale: real) returns (ok: bool)
    requires driver.Schedules() && IsExp(exp) && dQ != dScores && dDst != dScores && dDst != hScores && dScores != hScores && dQ != hScores && dQ != dDst
    requires 0 < seqLen <= dScores.Length && seqLen <= hScores.Length && seqLen <= INT_MAX && heads.Valid() && heads.Query() <= INT_MAX
    requires heads.Query() <= dQ.Length && heads.Query() <= dDst.Length && (driver.softcap > 0.0 ==> driver.hasSoftcap)
    requires Offset(seqLen, heads.Position()) <= |layer.k| && Offset(seqLen, heads.Position()) <= |layer.v|
    modifies driver`calls, dScores, hScores, dDst
    ensures driver.calls >= old(driver.calls) && (ok <==> driver.NoneFailed(old(driver.calls), driver.calls))
    ensures ok ==> Batch(heads, dQ[..], 0, layer.k, layer.v, seqLen, scale).Rows(exp, driver.Cap(exp), dDst[..], 0, heads.n)
  {
    hide IsExp, Offset, RowDone, OnlyRow, Batch.Rows, Driver.NoneFailed, Driver.Cap, Schedule;
    ghost var qs := dQ[..];
    ghost var p := Batch(heads, qs, 0, layer.k, layer.v, seqLen, scale);
    ghost var c0 := driver.calls;
    NoCalls(driver, c0);
    OneQuery(heads);
    OneInPlace(heads);
    NoRows(p, exp, driver.Cap(exp), dDst[..], 0, heads.Query());
    for h := 0 to heads.n
      invariant c0 <= driver.calls && driver.NoneFailed(c0, driver.calls) && dQ[..] == qs
      invariant p.Rows(exp, driver.Cap(exp), dDst[..], 0, h)
    {
      ghost var c, was := driver.calls, dDst[..];
      RowCells(heads, 0, h, 1);
      heads.KvHead(h);
      OffsetZero(heads.n);
      OffsetZero(heads.Query());
      ok := HeadByKernels(driver, exp, dQ, Offset(h, heads.dim), heads.GroupView(layer.k, h), heads.GroupView(layer.v, h), dScores, hScores,
                          dDst, seqLen, scale);
      CallsJoin(driver, c0, c, driver.calls);
      if !ok { return; }
      assert dQ[..] == qs;
      KernelRow(p, exp, driver.Cap(exp), dDst[..], h);
      RowsGrow(p, exp, driver.Cap(exp), was, dDst[..], 0, h);
    }
    ok := true;
  }

  /** The row of head h of a single query. */
  lemma KernelRow(p: Batch, exp: real -> real, cap: real -> real, out: seq<real>, h: nat)
    requires IsExp(exp) && p.heads.Valid() && 0 < p.seqBase && h < p.heads.n && p.qPtr == 0
    requires Offset(h, p.heads.dim) + p.heads.dim <= |p.q|
    requires RowDone(exp, p.q[Offset(h, p.heads.dim)..Offset(h, p.heads.dim) + p.heads.dim], p.heads.KvView(p.k, h), p.heads.KvView(p.v, h),
                     p.seqBase, p.scale, cap, out, Offset(h, p.heads.dim))
    ensures p.Row(exp, cap, out, 0, h)
  {
    hide IsExp, RowDone, Offset;
    var at := Offset(h, p.heads.dim);
    assert h % p.heads.n == h && h / p.heads.n == 0;
    assert Slice(p.q, at, p.heads.dim) == p.q[at..at + p.heads.dim];
  }

  /** Single-query attention by separate kernels. */
  method KernelsDevice(driver: Driver, exp: real -> real, layer: KvLayer, dst: array<real>, dOff: nat, q: array<real>, qOff: nat,
                       seqLen: nat, heads: Heads, scale: real) returns (rc: int)
    requires driver.Schedules() && IsExp(exp) && layer.Valid() && q != dst && heads.Valid() && heads.Query() <= INT_MAX
    requires 0 < seqLen <= layer.maxSeq && layer.Covers(heads, seqLen) && (driver.softcap > 0.0 ==> driver.hasSoftcap)
    requires qOff + heads.Query() <= q.Length && dOff + heads.Query() <= dst.Length
    modifies driver`calls, dst
    ensures driver.calls >= old(driver.calls)
    ensures OnlyRow(old(dst[..]), dst[..], dOff, heads.Query())
    ensures rc == 0 <==> driver.NoneFailed(old(driver.calls), driver.calls)
    ensures rc == 0 ==> Batch(heads, q[..], qOff, layer.k, layer.v, seqLen, scale).Rows(exp, driver.Cap(exp), dst[..], dOff, heads.n)
  {
    hide IsExp, Offset, RowDone, Batch.Rows, Schedule, Same, Driver.NoneFailed, OnlyRow, Driver.Cap;
    NothingWritten(dst[..], dOff, heads.Query());
    OneQuery(heads);
    ghost var host, c0 := q[..], driver.calls;
    NoCalls(driver, c0);
    var pooled := driver.poolQ >= heads.Query() && driver.poolSeq >= seqLen;
    var ok := Allocate(driver, driver.hasSoftmax);
    if !ok { return -12; }
    ghost var c := driver.calls;
    ok := AllocateThree(driver, pooled);
    CallsJoin(driver, c0, c, driver.calls);
    if !ok { return -1; }
    var cells, positions := if pooled then driver.poolQ else heads.Query(), if pooled then driver.poolSeq else seqLen;
    var dQ, dDst := new real[cells], new real[cells];
    var dScores, hScores := new real[positions], new real[seqLen];
    ok := Copy(driver, q, qOff, dQ, 0, heads.Query());
    OneCall(driver, c0, driver.calls - 1);
    if !ok { return -4; }
    SameBack(q[..], qOff, dQ[..], 0, heads.Query());
    c := driver.calls;
    ok := HeadsByKernels(driver, exp, dQ, layer, dScores, hScores, dDst, seqLen, heads, scale);
    CallsJoin(driver, c0, c, driver.calls);
    if !ok { return -4; }
    ok := Copy(driver, dDst, 0, dst, dOff, heads.Query());
    OneCall(driver, c0, driver.calls - 1);
    if !ok { return -4; }
    assert q[..] == host;
    RowsMoved(Batch(heads, dQ[..], 0, layer.k, layer.v, seqLen, scale), Batch(heads, q[..], qOff, layer.k, layer.v, seqLen, scale),
              exp, driver.Cap(exp), dDst[..], 0, dst[..], dOff, 1);
    rc := 0;
  }

  method AllocateThree(driver: Driver, pooled: bool) returns (ok: bool)
    modifies driver`calls
    ensures driver.calls >= old(driver.calls) && (ok <==> driver.NoneFailed(old(driver.calls), driver.calls))
  {
    for i := 0 to 3
      invariant driver.calls >= old(driver.calls) && driver.NoneFailed(old(driver.calls), driver.calls)
    {
      ok := Allocate(driver, pooled);
      if !ok { return; }
    }
    ok := true;
  }

  /** Single-query attention: the fused kernel when no score cap is set, else or on any failure the separate kernels. */
  method KvAttention(driver: Driver, exp: real -> real, layer: KvLayer, dst: array<real>, dOff: nat, q: array<real>, qOff: nat,
                     seqLen: int, heads: Heads, scale: real) returns (rc: int)
    requires driver.Schedules() && IsExp(exp) && layer.Valid() && q != dst && heads.Query() <= INT_MAX && layer.Covers(heads, seqLen)
    requires qOff + heads.Query() <= q.Length && dOff + heads.Query() <= dst.Length
    modifies driver`calls, dst
    ensures driver.calls >= old(driver.calls)
    ensures OnlyRow(old(dst[..]), dst[..], dOff, heads.Query())
    ensures rc == 0 ==> SingleRuns(driver, layer, seqLen, heads)
    ensures SingleRuns(driver, layer, seqLen, heads) && driver.NoneFailed(old(driver.calls), driver.calls) ==> rc == 0
    ensures rc == 0 ==> Batch(heads, q[..], qOff, layer.k, layer.v, seqLen, scale).Rows(exp, driver.Cap(exp), dst[..], dOff, heads.n)
  {
    hide IsExp, Offset, RowDone, Batch.Rows, Schedule, Driver.NoneFailed, OnlyRow;
    ghost var was, c0 := dst[..], driver.calls;
    NothingWritten(was, dOff, heads.Query());
    if seqLen > layer.maxSeq { return -2; }
    if seqLen <= 0 || !heads.Valid() { return -11; }
    if driver.softcap > 0.0 && !driver.hasSoftcap { return -13; }
    if driver.softcap <= 0.0 && driver.hasFlash {
      rc := FlashDevice(driver, exp, layer, dst, dOff, q, qOff, seqLen, heads, scale);
      if rc == 0 { return; }
    }
    ghost var c, was' := driver.calls, dst[..];
    rc := KernelsDevice(driver, exp, layer, dst, dOff, q, qOff, seqLen, heads, scale);
    CallsJoin(driver, c0, c, driver.calls);
    WithinCells(was, was', dst[..], dOff, heads.Query(), 0, heads.Query());
  }

  predicate SingleRuns(driver: Driver, layer: KvLayer, seqLen: int, heads: Heads) {
    0 < seqLen <= layer.maxSeq && heads.Valid() && (driver.softcap > 0.0 ==> driver.hasSoftcap)
  }

  predicate HasKernels(driver: Driver, kv: KvLayer, seqLen: nat) {
    seqLen <= kv.maxSeq && (driver.softcap > 0.0 ==> driver.hasSoftcap)
  }

  /** Refused: no kernels, bad dimensions, short buffers, or no cache yet. Failed: an error in the middle. */
  datatype Answer = Fused | PerQuery | Refused | Failed

  /** The backend: the fused batch when it can, else one query at a time. Query i sees pastLen + i + 1 positions. Whether the
      batch was fused, and so whether a score cap was ignored, is decided by what is known before and by the fused calls alone. */
  method AttentionScoresKVBatch(driver: Driver, exp: real -> real, hasAttn: bool, layers: seq<KvLayer>, layer: int, dst: array<real>, q: array<real>,
                                n: int, pastLen: int, heads: Heads, scale: real) returns (a: Answer)
    requires driver.Schedules() && IsExp(exp) && q != dst && heads.Query() <= INT_MAX
    requires forall l <- layers :: l.Valid() && l.Covers(heads, Min(pastLen + n, l.maxSeq))
    modifies driver`calls, dst
    ensures driver.calls >= old(driver.calls)
    ensures a == Refused <==>
      || layers == [] || !hasAttn || n <= 0 || pastLen < 0 || heads.n == 0 || heads.kv == 0 || heads.dim == 0 || heads.n % heads.kv != 0
      || dst.Length < n * heads.n * heads.dim || q.Length < n * heads.n * heads.dim
    ensures a == Refused ==> dst[..] == old(dst[..])
    ensures a == Fused <==>
      && a != Refused && 0 <= layer < |layers| && FusedBatchRuns(driver, layers[layer], n, pastLen, heads)
      && driver.NoneFailed(old(driver.calls), old(driver.calls) + FusedCalls(n))
    ensures a == Fused || a == PerQuery ==> 0 <= layer < |layers| && pastLen + n <= layers[layer].maxSeq
    ensures a == Fused && InPlace(heads, Offset(GridRows(n), heads.n)) ==>
      Batch(heads, q[..], 0, layers[layer].k, layers[layer].v, pastLen + 1, scale).Rows(exp, Identity, dst[..], 0, Offset(n, heads.n))
    ensures a == Fused && !InPlace(heads, Offset(GridRows(n), heads.n)) ==>
      var last := Offset(GridRows(n), heads.Query()) - 1; 0 <= last < dst.Length && dst[last] == driver.stale(old(driver.calls) + 1, last)
    ensures a == PerQuery ==>
      Batch(heads, q[..], 0, layers[layer].k, layers[layer].v, pastLen + 1, scale).Rows(exp, driver.Cap(exp), dst[..], 0, Offset(n, heads.n))
    ensures driver.softcap <= 0.0 && (a == PerQuery || (a == Fused && InPlace(heads, Offset(GridRows(n), heads.n)))) ==>
      Batch(heads, q[..], 0, layers[layer].k, layers[layer].v, pastLen + 1, scale).Rows(exp, driver.Cap(exp), dst[..], 0, Offset(n, heads.n))
    ensures a == Failed ==>
      !(0 <= layer < |layers| && HasKernels(driver, layers[layer], pastLen + n) && driver.NoneFailed(old(driver.calls), driver.calls))
  {
    hide IsExp, Offset, RowDone, Batch.Rows, Schedule, Driver.NoneFailed, InPlace, OnlyRow;
    BatchCells(n, heads);
    if !hasAttn { return Refused; }
    if n <= 0 || pastLen < 0 || !heads.Valid() { return Refused; }
    if dst.Length < Offset(n, heads.Query()) || q.Length < Offset(n, heads.Query()) { return Refused; }
    if layers == [] { return Refused; }
    if layer < 0 || layer >= |layers| { return Failed; }
    var kv := layers[layer];
    ghost var c0 := driver.calls;
    if driver.hasFlash && heads.dim <= THREADS {
      var rc := KvAttentionBatch(driver, exp, kv, dst, q, n, pastLen, heads, scale);
      if rc == 0 { return Fused; }
    }
    a := QueryByQuery(driver, exp, kv, dst, q, n, pastLen, heads, scale, c0);
  }

  /** Whatever the driver's cap, a fused answer is not the capped one: one query over two positions. */
  lemma FusedMissesCap(driver: Driver, exp: real -> real) returns (p: Batch)
    requires IsExp(exp) && OneOnlyAtZero(exp) && driver.softcap > 0.0
    ensures p.Valid(1) && p.seqBase == 2
    ensures forall out :: !(p.Rows(exp, Identity, out, 0, 1) && p.Rows(exp, driver.Cap(exp), out, 0, 1))
  {
    hide IsExp, OneOnlyAtZero, HeadOut, ScoreCap;
    CapShows(exp, driver.softcap);
    p := Batch(Heads(1, 1, 1), [driver.softcap], 0, [0.0, 1.0], [0.0, 1.0], 2, 1.0);
    forall out | p.Rows(exp, Identity, out, 0, 1)
      ensures !p.Rows(exp, driver.Cap(exp), out, 0, 1)
    {
      OneCell(p, exp, Identity, out);
      if p.Rows(exp, driver.Cap(exp), out, 0, 1) {
        OneCell(p, exp, driver.Cap(exp), out);
        assert false;
      }
    }
  }

  lemma OneCell(p: Batch, exp: real -> real, cap: real -> real, out: seq<real>)
    requires IsExp(exp) && |p.q| == 1 && p == Batch(Heads(1, 1, 1), p.q, 0, ZERO_ONE.data, ZERO_ONE.data, 2, 1.0)
    requires p.Rows(exp, cap, out, 0, 1)
    ensures |out| > 0 && out[0] == HeadOut(exp, p.q, ZERO_ONE, ZERO_ONE, 2, 1.0, cap, 0)
  {
    hide IsExp, HeadOut;
    assert Slice(p.q, 0, 1) == p.q && p.heads.KvView(p.k, 0) == ZERO_ONE;
    assert p.Row(exp, cap, out, 0, 0);
  }

  lemma BatchCells(n: int, heads: Heads)
    ensures n > 0 ==> Offset(n, heads.Query()) == n * heads.n * heads.dim
  {
    if n > 0 {
      var d := heads.n * heads.dim;
      assert n * d == n * heads.n * heads.dim;
    }
  }

  /** The loop of single queries. */
  method QueryByQuery(driver: Driver, exp: real -> real, kv: KvLayer, dst: array<real>, q: array<real>, n: nat, pastLen: nat,
                      heads: Heads, scale: real, ghost c0: nat) returns (a: Answer)
    requires driver.Schedules() && IsExp(exp) && q != dst && kv.Valid() && kv.Covers(heads, Min(pastLen + n, kv.maxSeq)) && heads.Valid()
    requires 0 < n && Offset(n, heads.Query()) <= dst.Length && Offset(n, heads.Query()) <= q.Length
    requires heads.Query() <= INT_MAX && c0 <= driver.calls
    modifies driver`calls, dst
    ensures driver.calls >= old(driver.calls)
    ensures a == PerQuery || a == Failed
    ensures a == PerQuery ==> pastLen + n <= kv.maxSeq
    ensures a == PerQuery ==>
      Batch(heads, q[..], 0, kv.k, kv.v, pastLen + 1, scale).Rows(exp, driver.Cap(exp), dst[..], 0, Offset(n, heads.n))
    ensures a == Failed ==> !(HasKernels(driver, kv, pastLen + n) && driver.NoneFailed(c0, driver.calls))
  {
    hide IsExp, Offset, RowDone, Batch.Rows, Schedule, Driver.NoneFailed, OnlyRow, Driver.Cap;
    ghost var host := q[..];
    ghost var p := Batch(heads, host, 0, kv.k, kv.v, pastLen + 1, scale);
    NoRows(p, exp, driver.Cap(exp), dst[..], 0, 0);
    for i := 0 to n
      invariant q[..] == host && old(driver.calls) <= driver.calls && (i > 0 ==> pastLen + i <= kv.maxSeq)
      invariant p.Rows(exp, driver.Cap(exp), dst[..], 0, Offset(i, heads.n))
    {
      ghost var was, c := dst[..], driver.calls;
      NextQuery(i, heads.Query());
      OffsetOrder(i + 1, n, heads.Query());
      kv.CoversLess(heads, pastLen + n, pastLen + i + 1);
      var rc := KvAttention(driver, exp, kv, dst, Offset(i, heads.Query()), q, Offset(i, heads.Query()), pastLen + i + 1, heads, scale);
      CallsJoin(driver, c0, c, driver.calls);
      if rc != 0 { return Failed; }
      assert q[..] == host;
      RowsJoin(p, exp, driver.Cap(exp), was, dst[..], 0, i, heads.n, heads.Query());
      NextQuery(i, heads.n);
    }
    a := PerQuery;
  }
}
