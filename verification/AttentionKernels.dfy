/** Attention as separate kernels: scaled scores, score cap, softmax and weighted values, one head at a time over a shared
    buffer of scores. Blocks of 256 threads, one cell each; the device runs every block once, in its own order. */
module AttentionKernels {
  import opened Offsets
  import opened RealSums
  import opened Softmax

  const BLOCK: nat := 256
  const INT_MAX: nat := 0x7FFF_FFFF

  /** Blocks that cover n cells. */
  function Blocks(n: nat): nat { (n + BLOCK - 1) / BLOCK }

  /** Every block below `blocks` runs exactly once. */
  ghost predicate Schedule(order: seq<nat>, blocks: nat) {
    && (forall j :: 0 <= j < |order| ==> order[j] < blocks)
    && (forall b :: 0 <= b < blocks ==> b in order)
    && (forall i, j :: 0 <= i < j < |order| ==> order[i] != order[j])
  }

  /** The cell of a thread. */
  function Cell(ctaid: nat, tid: nat): nat { U32(ctaid * BLOCK + tid) }

  lemma CellExact(ctaid: nat, tid: nat, n: nat)
    requires ctaid < Blocks(n) && tid < BLOCK && n <= INT_MAX
    ensures Cell(ctaid, tid) == ctaid * BLOCK + tid
  {
  }

  /** Cells at, at + 1, ... are to become `goal`: those of the blocks that ran have, nothing else changed. */
  ghost predicate RanBlocks(was: seq<real>, goal: seq<real>, at: nat, now: seq<real>, done: seq<nat>) {
    && |now| == |was| && at + |goal| <= |was|
    && forall j :: 0 <= j < |was| ==>
      now[j] == if at <= j < at + |goal| && (j - at) / BLOCK in done then goal[j - at] else was[j]
  }

  /** The same inside one block: the threads before tid have written. */
  ghost predicate RanThreads(was: seq<real>, goal: seq<real>, at: nat, now: seq<real>, ctaid: nat, tid: nat) {
    && |now| == |was| && at + |goal| <= |was|
    && forall j :: 0 <= j < |was| ==>
      now[j] == if at <= j < at + |goal| && ctaid * BLOCK <= j - at < ctaid * BLOCK + tid then goal[j - at] else was[j]
  }

  lemma NoneRan(was: seq<real>, goal: seq<real>, at: nat, ctaid: nat)
    requires at + |goal| <= |was|
    ensures RanBlocks(was, goal, at, was, []) && RanThreads(was, goal, at, was, ctaid, 0)
  {
  }

  lemma ThreadRan(was: seq<real>, goal: seq<real>, at: nat, now: seq<real>, now': seq<real>, ctaid: nat, tid: nat)
    requires RanThreads(was, goal, at, now, ctaid, tid)
    requires var c := ctaid * BLOCK + tid; if c < |goal| then now' == now[at + c := goal[c]] else now' == now
    ensures RanThreads(was, goal, at, now', ctaid, tid + 1)
  {
    var c := ctaid * BLOCK + tid;
    forall j | 0 <= j < |was|
      ensures now'[j] == if at <= j < at + |goal| && ctaid * BLOCK <= j - at < ctaid * BLOCK + (tid + 1) then goal[j - at] else was[j]
    {
      assert j == at + c || now'[j] == now[j];
    }
  }

  lemma BlockRan(first: seq<real>, goal: seq<real>, at: nat, was: seq<real>, now: seq<real>, done: seq<nat>, ctaid: nat)
    requires RanBlocks(first, goal, at, was, done) && RanThreads(was, goal, at, now, ctaid, BLOCK)
    ensures RanBlocks(first, goal, at, now, done + [ctaid])
  {
    forall j | 0 <= j < |first|
      ensures now[j] == if at <= j < at + |goal| && (j - at) / BLOCK in done + [ctaid] then goal[j - at] else first[j]
    {
      InBlock(j - at, ctaid);
    }
  }

  lemma InBlock(i: int, ctaid: nat)
    ensures i / BLOCK == ctaid <==> ctaid * BLOCK <= i < ctaid * BLOCK + BLOCK
  {
  }

  /** The order of the blocks is over: every cell is as it was to become. */
  lemma AllRan(was: seq<real>, goal: seq<real>, at: nat, now: seq<real>, order: seq<nat>)
    requires RanBlocks(was, goal, at, now, order) && Schedule(order, Blocks(|goal|))
    ensures |now| == |was| && now[at..at + |goal|] == goal && OnlyRow(was, now, at, |goal|)
  {
    forall i | 0 <= i < |goal| ensures now[at..at + |goal|][i] == goal[i] {
      assert i / BLOCK < Blocks(|goal|);
      assert now[at + i] == goal[at + i - at];
    }
  }

  // ---------------------------------------------------------------------------------
  // Scores
  // ---------------------------------------------------------------------------------

  /** Thread t of the grid: the query times the key at position t, scaled. Addresses are 64-bit. */
  method QkThread(q: array<real>, qOff: nat, k: View, scores: array<real>, seqLen: nat, scale: real, r4: nat)
    requires k.Fits(seqLen) && qOff + k.width <= q.Length && seqLen <= scores.Length && q != scores
    modifies scores
    ensures scores[..] == old(if r4 < seqLen then
      scores[..][r4 := Scores(q[qOff..qOff + k.width], k, seqLen, scale, Identity)[r4]] else scores[..])
  {
    hide Mul, Dot, View.Fits;
    if r4 >= seqLen { return; }
    var f2 := QkDot(q, qOff, k, seqLen, r4);
    scores[r4] := Mul(f2, scale);
    assert Scores(q[qOff..qOff + k.width], k, seqLen, scale, Identity)[r4] ==
      Identity(Mul(Dot(q[qOff..qOff + k.width], k.Row(r4)), scale));
  }

  method QkDot(q: array<real>, qOff: nat, k: View, seqLen: nat, t: nat) returns (f2: real)
    requires k.Fits(seqLen) && qOff + k.width <= q.Length && t < seqLen
    ensures f2 == Dot(q[qOff..qOff + k.width], k.Row(t))
  {
    hide Mul;
    ghost var row, qs := k.Row(t), q[qOff..qOff + k.width];
    k.InRange(seqLen, t);
    f2 := 0.0;
    for i := 0 to k.width
      invariant f2 == Dot(qs[..i], row[..i])
    {
      assert qs[..i + 1][..i] == qs[..i] && row[..i + 1][..i] == row[..i];
      f2 := f2 + Mul(q[qOff + i], k.data[Offset(t, k.stride) + k.base + i]);
    }
    assert qs[..k.width] == qs && row[..k.width] == row;
  }

  method AttnQk(q: array<real>, qOff: nat, k: View, scores: array<real>, seqLen: nat, scale: real, order: seq<nat>)
    requires k.Fits(seqLen) && qOff + k.width <= q.Length && seqLen <= scores.Length && q != scores && seqLen <= INT_MAX
    requires Schedule(order, Blocks(seqLen))
    modifies scores
    ensures scores[..seqLen] == Scores(q[qOff..qOff + k.width], k, seqLen, scale, Identity)
  {
    hide Scores, RanBlocks, RanThreads, Cell, View.Fits;
    ghost var first, qs := scores[..], q[qOff..qOff + k.width];
    ghost var s := Scores(qs, k, seqLen, scale, Identity);
    NoneRan(first, s, 0, 0);
    for j := 0 to |order|
      invariant q[qOff..qOff + k.width] == qs && RanBlocks(first, s, 0, scores[..], order[..j])
    {
      ghost var was := scores[..];
      LengthStays(first, s, 0, was, order[..j]);
      NoneRan(was, s, 0, order[j]);
      for tid := 0 to BLOCK
        invariant q[qOff..qOff + k.width] == qs && RanThreads(was, s, 0, scores[..], order[j], tid)
      {
        ghost var before := scores[..];
        CellExact(order[j], tid, seqLen);
        QkThread(q, qOff, k, scores, seqLen, scale, Cell(order[j], tid));
        ThreadRan(was, s, 0, before, scores[..], order[j], tid);
      }
      BlockRan(first, s, 0, was, scores[..], order[..j], order[j]);
      assert order[..j + 1] == order[..j] + [order[j]];
    }
    assert order[..|order|] == order;
    AllRan(first, s, 0, scores[..], order);
  }

  lemma LengthStays(was: seq<real>, goal: seq<real>, at: nat, now: seq<real>, done: seq<nat>)
    requires RanBlocks(was, goal, at, now, done)
    ensures |now| == |was| && at + |goal| <= |was|
  {
  }

  // ---------------------------------------------------------------------------------
  // Score cap
  // ---------------------------------------------------------------------------------

  function Tanh(exp: real -> real, z: real): real {
    var a, b := exp(z), exp(-z);
    if a + b == 0.0 then 0.0 else (a - b) / (a + b)
  }

  /** c * tanh(x / c). */
  function ScoreCap(exp: real -> real, c: real): real -> real {
    x => if c == 0.0 then x else Mul(c, Tanh(exp, x / c))
  }

  /** One exponential is enough: 1 - 2 / (exp(2 z) + 1). */
  lemma TanhByOneExp(exp: real -> real, z: real)
    requires IsExp(exp)
    ensures exp(z + z) > 0.0 && 1.0 - 2.0 / (exp(z + z) + 1.0) == Tanh(exp, z)
  {
    var a, b := exp(z), exp(-z);
    assert exp(z + z) == a * a;
    assert exp(z + -z) == a * b && exp(0.0 + 0.0) == exp(0.0) * exp(0.0);
    Hyperbolic(a, b);
  }

  lemma Hyperbolic(a: real, b: real)
    requires a > 0.0 && b > 0.0 && a * b == 1.0
    ensures a * a > 0.0 && 1.0 - 2.0 / (a * a + 1.0) == (a - b) / (a + b)
  {
    var t := (a - b) / (a + b);
    assert t * (a + b) == a - b;
    assert t * (a + b) * a == (a - b) * a;
    assert (a + b) * a == a * a + 1.0;
    assert t * (a * a + 1.0) == a * a - 1.0;
    var u := 2.0 / (a * a + 1.0);
    assert u * (a * a + 1.0) == 2.0;
    assert (1.0 - u) * (a * a + 1.0) == a * a - 1.0;
    SameQuotient(t, 1.0 - u, a * a + 1.0);
  }

  lemma SameQuotient(x: real, y: real, d: real)
    requires d > 0.0 && x * d == y * d
    ensures x == y
  {
    assert x == x * d / d && y == y * d / d;
  }

  method SoftcapThread(exp: real -> real, x: array<real>, n: nat, softcap: real, r4: nat)
    requires IsExp(exp) && n <= x.Length && softcap > 0.0
    modifies x
    ensures x[..] == old(if r4 < n then x[..][r4 := ScoreCap(exp, softcap)(x[r4])] else x[..])
  {
    hide IsExp, Tanh;
    if r4 >= n { return; }
    var z := x[r4] / softcap;
    TanhByOneExp(exp, z);
    var e := exp(z + z);
    x[r4] := Mul(softcap, 1.0 - 2.0 / (e + 1.0));
  }

  method SoftcapKernel(exp: real -> real, x: array<real>, n: nat, softcap: real, order: seq<nat>)
    requires IsExp(exp) && n <= x.Length && n <= INT_MAX && softcap > 0.0 && Schedule(order, Blocks(n))
    modifies x
    ensures forall i :: 0 <= i < n ==> x[i] == ScoreCap(exp, softcap)(old(x[i]))
  {
    hide IsExp, RanBlocks, RanThreads, Cell, ScoreCap;
    ghost var first := x[..];
    ghost var s := seq(n, i requires 0 <= i < n => ScoreCap(exp, softcap)(first[i]));
    NoneRan(first, s, 0, 0);
    for j := 0 to |order|
      invariant RanBlocks(first, s, 0, x[..], order[..j])
    {
      ghost var was := x[..];
      LengthStays(first, s, 0, was, order[..j]);
      NoneRan(was, s, 0, order[j]);
      for tid := 0 to BLOCK
        invariant RanThreads(was, s, 0, x[..], order[j], tid)
      {
        ghost var before := x[..];
        CellExact(order[j], tid, n);
        if Cell(order[j], tid) < n { StillOld(first, s, was, before, order[..j], order[j], tid); }
        SoftcapThread(exp, x, n, softcap, Cell(order[j], tid));
        ThreadRan(was, s, 0, before, x[..], order[j], tid);
      }
      BlockRan(first, s, 0, was, x[..], order[..j], order[j]);
      assert order[..j + 1] == order[..j] + [order[j]];
    }
    assert order[..|order|] == order;
    AllRan(first, s, 0, x[..], order);
    assert forall i :: 0 <= i < n ==> x[i] == x[..][0..0 + n][i];
  }

  /** A thread whose turn it is finds its cell as it was at launch. */
  lemma StillOld(first: seq<real>, goal: seq<real>, was: seq<real>, now: seq<real>, done: seq<nat>, ctaid: nat, tid: nat)
    requires RanBlocks(first, goal, 0, was, done) && ctaid !in done && RanThreads(was, goal, 0, now, ctaid, tid)
    requires tid < BLOCK && ctaid * BLOCK + tid < |goal|
    ensures |now| == |first| && now[ctaid * BLOCK + tid] == first[ctaid * BLOCK + tid]
  {
    var c := ctaid * BLOCK + tid;
    InBlock(c, ctaid);
    assert now[c] == was[c] == first[c];
  }

  /** Capping plain scores gives capped scores. */
  lemma CappedScores(q: seq<real>, k: View, n: nat, scale: real, cap: real -> real, s: seq<real>)
    requires |q| == k.width && |s| == n
    requires forall i :: 0 <= i < n ==> s[i] == cap(Scores(q, k, n, scale, Identity)[i])
    ensures s == Scores(q, k, n, scale, cap)
  {
    hide Mul, Dot;
    forall i | 0 <= i < n ensures s[i] == Scores(q, k, n, scale, cap)[i] {
      assert Scores(q, k, n, scale, Identity)[i] == Identity(Mul(Dot(q, k.Row(i)), scale));
    }
  }

  // ---------------------------------------------------------------------------------
  // Softmax by a single thread, on the device or, where that kernel is missing, on the host
  // ---------------------------------------------------------------------------------

  method SoftmaxSingleThread(exp: real -> real, x: array<real>, n: nat)
    requires IsExp(exp) && n <= x.Length
    modifies x
    ensures forall i :: n <= i < x.Length ==> x[i] == old(x[i])
    ensures n > 0 ==> IsSoftmax(exp, old(x[..n]), x[..n])
  {
    hide IsExp, Den, IsSoftmax, Sum, Weights, Mul, ExpUpTo;
    if n == 0 { return; }
    var f1 := Max(x, n);
    ghost var s, was := x[..n], x[..];
    ExpNone(exp, was, f1);
    var f3, r5 := 0.0, 0;
    while r5 < n
      invariant r5 <= n && ExpUpTo(exp, was, f1, r5, x[..]) && f3 == Den(exp, was[..r5], f1)
    {
      var f4 := ExpCell(exp, x, r5, f1, was);
      f3 := f3 + f4;
      r5 := r5 + 1;
    }
    assert was[..n] == s;
    DenPositive(exp, s, f1);
    ghost var e := x[..n];
    Exps(exp, was, f1, n, x[..]);
    ScaleInPlace(x, n, 1.0 / f3);
    ScaledExps(exp, s, f1, 1.0 / f3, e, x[..n]);
    WeightsAreSoftmax(exp, s, f1, x[..n]);
  }

  lemma Exps(exp: real -> real, was: seq<real>, c: real, n: nat, now: seq<real>)
    requires ExpUpTo(exp, was, c, n, now)
    ensures n <= |now| == |was| && (forall i :: 0 <= i < n ==> now[i] == exp(was[i] - c))
    ensures forall i :: n <= i < |was| ==> now[i] == was[i]
  {
  }

  // ---------------------------------------------------------------------------------
  // Weighted values
  // ---------------------------------------------------------------------------------

  /** Thread i of the grid: column i of the values, weighted. */
  method VThread(scores: array<real>, v: View, out: array<real>, outOff: nat, seqLen: nat, r4: nat)
    requires v.Fits(seqLen) && seqLen <= scores.Length && outOff + v.width <= out.Length && out != scores
    modifies out
    ensures out[..] == old(if r4 < v.width then out[..][outOff + r4 := Dot(scores[..seqLen], v.Column(seqLen, r4))] else out[..])
  {
    if r4 >= v.width { return; }
    var f1 := DotStride(scores, v, seqLen, r4);
    out[outOff + r4] := f1;
  }

  ghost function Weighted(w: seq<real>, v: View): (r: seq<real>)
    ensures |r| == v.width
  {
    seq(v.width, i requires 0 <= i < v.width => Dot(w, v.Column(|w|, i)))
  }

  method AttnV(scores: array<real>, v: View, out: array<real>, outOff: nat, seqLen: nat, order: seq<nat>)
    requires v.Fits(seqLen) && seqLen <= scores.Length && outOff + v.width <= out.Length && out != scores && v.width <= INT_MAX
    requires Schedule(order, Blocks(v.width))
    modifies out
    ensures out[outOff..outOff + v.width] == Weighted(scores[..seqLen], v)
    ensures OnlyRow(old(out[..]), out[..], outOff, v.width)
  {
    hide RanBlocks, RanThreads, Cell, View.Fits, Dot, View.Column;
    ghost var first, w := out[..], scores[..seqLen];
    ghost var s := Weighted(w, v);
    NoneRan(first, s, outOff, 0);
    for j := 0 to |order|
      invariant scores[..seqLen] == w && RanBlocks(first, s, outOff, out[..], order[..j])
    {
      ghost var was := out[..];
      LengthStays(first, s, outOff, was, order[..j]);
      NoneRan(was, s, outOff, order[j]);
      for tid := 0 to BLOCK
        invariant scores[..seqLen] == w && RanThreads(was, s, outOff, out[..], order[j], tid)
      {
        ghost var before := out[..];
        CellExact(order[j], tid, v.width);
        VThread(scores, v, out, outOff, seqLen, Cell(order[j], tid));
        ThreadRan(was, s, outOff, before, out[..], order[j], tid);
      }
      BlockRan(first, s, outOff, was, out[..], order[..j], order[j]);
      assert order[..j + 1] == order[..j] + [order[j]];
    }
    assert order[..|order|] == order;
    AllRan(first, s, outOff, out[..], order);
  }

  /** Scores, their softmax and the weighted values make the row. */
  lemma RowFromKernels(exp: real -> real, q: seq<real>, k: View, v: View, n: nat, scale: real, cap: real -> real, w: seq<real>,
                       out: seq<real>, at: nat)
    requires IsExp(exp) && n > 0 && |q| == k.width && IsSoftmax(exp, Scores(q, k, n, scale, cap), w)
    requires at + v.width <= |out| && out[at..at + v.width] == Weighted(w, v)
    ensures RowDone(exp, q, k, v, n, scale, cap, out, at)
  {
    hide IsExp, IsSoftmax, Scores, Attend, Dot, View.Column;
    var s := Scores(q, k, n, scale, cap);
    forall i | 0 <= i < v.width ensures out[at + i] == HeadOut(exp, q, k, v, n, scale, cap, i) {
      SoftmaxAttends(exp, s, w, v.Column(n, i));
      assert out[at + i] == out[at..at + v.width][i] == Dot(w, v.Column(|w|, i));
    }
  }

  // ---------------------------------------------------------------------------------
  // What the cap changes
  // ---------------------------------------------------------------------------------

  /** The cap is below its bound. */
  lemma TanhBelowOne(exp: real -> real, z: real)
    requires IsExp(exp)
    ensures -1.0 < Tanh(exp, z) < 1.0
  {
    var a, b := exp(z), exp(-z);
    Below(a - b, a + b);
  }

  lemma Below(x: real, d: real)
    requires d > 0.0 && -d < x < d
    ensures -1.0 < x / d < 1.0
  {
    var t := x / d;
    assert t * d == x;
    assert (1.0 - t) * d > 0.0 && (1.0 + t) * d > 0.0;
    SameSign(1.0 - t, d);
    SameSign(1.0 + t, d);
  }

  lemma SameSign(x: real, d: real)
    requires d > 0.0 && x * d > 0.0
    ensures x > 0.0
  {
  }

  lemma ExpZero(exp: real -> real)
    requires IsExp(exp)
    ensures exp(0.0) == 1.0
  {
    var e := exp(0.0);
    assert exp(0.0 + 0.0) == e * e;
    SameQuotient(e, 1.0, e);
  }

  /** The weight of a score whose exponential is e, next to a score of zero. */
  function Share(e: real): real { if e == -1.0 then 0.0 else e / (1.0 + e) }

  lemma ShareApart(a: real, b: real)
    requires a > 0.0 && b > 0.0 && Share(a) == Share(b)
    ensures a == b
  {
    var x := a / (1.0 + a);
    assert x * (1.0 + a) == a && x * (1.0 + b) == b;
    assert (1.0 - x) * (1.0 + a) == 1.0 == (1.0 - x) * (1.0 + b);
    assert 1.0 - x > 0.0 by { Below(a, 1.0 + a); }
    SameQuotient(1.0 + a, 1.0 + b, 1.0 - x);
  }

  /** Attention over two positions with scores 0 and s and values 0 and 1. */
  lemma TwoPositions(exp: real -> real, s: real)
    requires IsExp(exp)
    ensures Attend(exp, [0.0, s], [0.0, 1.0]) == Share(exp(s))
  {
    ExpZero(exp);
    ExpPositive(exp, s);
    var ss, vs := [0.0, s], [0.0, 1.0];
    assert ss[..1] == [0.0] && vs[..1] == [0.0] && ss[..1][..0] == [];
    assert Num(exp, [0.0], [0.0], 0.0) == 0.0 && Den(exp, [0.0], 0.0) == 1.0;
    assert s - 0.0 == s;
  }

  /** Key and value cells 0 and 1. */
  const ZERO_ONE: View := View([0.0, 1.0], 0, 1, 1)

  lemma TwoScores(exp: real -> real, c: real, cap: real -> real)
    requires IsExp(exp) && cap(0.0) == 0.0
    ensures HeadOut(exp, [c], ZERO_ONE, ZERO_ONE, 2, 1.0, cap, 0) == Share(exp(cap(c)))
  {
    hide IsExp, Attend, Share;
    var k := ZERO_ONE;
    assert k.Row(0) == [0.0] && k.Row(1) == [1.0] && k.Column(2, 0) == [0.0, 1.0];
    assert Dot([c], [0.0]) == 0.0 && Dot([c], [1.0]) == c by { assert [c][..0] == []; }
    var s := Scores([c], k, 2, 1.0, cap);
    assert s[0] == cap(Mul(0.0, 1.0)) && s[1] == cap(Mul(c, 1.0));
    assert s == [0.0, cap(c)];
    TwoPositions(exp, cap(c));
  }

  lemma CapAt(exp: real -> real, c: real)
    requires IsExp(exp) && c > 0.0
    ensures ScoreCap(exp, c)(0.0) == 0.0 && ScoreCap(exp, c)(c) == Mul(c, Tanh(exp, 1.0))
  {
    assert c / c == 1.0 && 0.0 / c == 0.0;
    assert Tanh(exp, 0.0) == 0.0;
  }

  /** Like the exponential of analysis, and unlike the constant one. */
  ghost predicate OneOnlyAtZero(exp: real -> real) {
    forall x :: exp(x) == 1.0 ==> x == 0.0
  }

  /** Whatever the cap, two positions notice it: the query is the cap itself. */
  lemma CapShows(exp: real -> real, c: real)
    requires IsExp(exp) && OneOnlyAtZero(exp) && c > 0.0
    ensures HeadOut(exp, [c], ZERO_ONE, ZERO_ONE, 2, 1.0, Identity, 0) != HeadOut(exp, [c], ZERO_ONE, ZERO_ONE, 2, 1.0, ScoreCap(exp, c), 0)
  {
    hide IsExp, HeadOut, ScoreCap, Tanh, Share, Mul;
    var t := Tanh(exp, 1.0);
    var lost := c - Mul(c, t);
    TanhBelowOne(exp, 1.0);
    Shrinks(c, t);
    CapAt(exp, c);
    TwoScores(exp, c, Identity);
    TwoScores(exp, c, ScoreCap(exp, c));
    ExpPositive(exp, c);
    ExpPositive(exp, Mul(c, t));
    ExpSplits(exp, c, Mul(c, t), lost);
    if Share(exp(c)) == Share(exp(Mul(c, t))) {
      ShareApart(exp(c), exp(Mul(c, t)));
      Factor(exp(Mul(c, t)), exp(lost));
      assert false;
    }
  }

  lemma Shrinks(c: real, t: real)
    requires c > 0.0 && t < 1.0
    ensures Mul(c, t) < c
  {
    assert c * (1.0 - t) > 0.0;
  }

  lemma Factor(a: real, f: real)
    requires a > 0.0 && Mul(a, f) == a
    ensures f == 1.0
  {
    SameQuotient(f, 1.0, a);
  }
}
