/** The fused attention kernel: one block of 256 threads per (head, query), positions in chunks of 256,
    online softmax with rescaling, tree reductions in shared memory. */
module FlashAttention {
  import opened Offsets
  import opened RealSums
  import opened Softmax

  const THREADS: nat := 256

  /** exp(a - b) with exp(-inf) = 0. */
  function ExpDiff(exp: real -> real, a: Ext, b: real): real {
    match a
    case NegInf => 0.0
    case Fin(x) => exp(x - b)
  }

  function NumOf(exp: real -> real, s: seq<real>, v: seq<real>, m: Ext): real
    requires |s| == |v|
  {
    match m
    case NegInf => 0.0
    case Fin(c) => Num(exp, s, v, c)
  }

  function DenOf(exp: real -> real, s: seq<real>, m: Ext): real {
    match m
    case NegInf => 0.0
    case Fin(c) => Den(exp, s, c)
  }

  // ---------------------------------------------------------------------------------
  // What one chunk does to the running sums
  // ---------------------------------------------------------------------------------

  lemma {:induction false} NumAppend(exp: real -> real, s: seq<real>, v: seq<real>, t: seq<real>, w: seq<real>, c: real)
    requires |s| == |v| && |t| == |w|
    ensures Num(exp, s + t, v + w, c) == Num(exp, s, v, c) + Num(exp, t, w, c)
    ensures Den(exp, s + t, c) == Den(exp, s, c) + Den(exp, t, c)
  {
    if t == [] {
      assert s + t == s && v + w == v;
    } else {
      var n := |t| - 1;
      NumAppend(exp, s, v, t[..n], w[..n], c);
      assert (s + t)[..|s + t| - 1] == s + t[..n] && (v + w)[..|v + w| - 1] == v + w[..n];
    }
  }

  lemma MaxInfiniteOnlyIfEmpty(s: seq<real>)
    ensures MaxOf(Reals(s)) == NegInf <==> s == []
  {
    if s != [] { MaxIsLargest(s); }
  }

  lemma EmptySums(exp: real -> real, s: seq<real>, v: seq<real>, c: real)
    requires s == [] && |v| == 0
    ensures Num(exp, s, v, c) == Den(exp, s, c) == 0.0
  {
  }

  /** Rescaling by exp(old max - new max) moves a sum from the old maximum to the new one. */
  lemma RescaleTo(exp: real -> real, s: seq<real>, v: seq<real>, m: Ext, c: real)
    requires IsExp(exp) && |s| == |v| && m == MaxOf(Reals(s))
    ensures Mul(NumOf(exp, s, v, m), ExpDiff(exp, m, c)) == Num(exp, s, v, c)
    ensures Mul(DenOf(exp, s, m), ExpDiff(exp, m, c)) == Den(exp, s, c)
  {
    hide IsExp, Mul, Num, Den, MaxOf;
    MaxInfiniteOnlyIfEmpty(s);
    match m {
      case NegInf =>
        MulUnits(0.0);
        EmptySums(exp, s, v, c);
      case Fin(d) =>
        Rescale(exp, s, v, d, c);
        MulSwap(Num(exp, s, v, d), exp(d - c));
        MulSwap(Den(exp, s, d), exp(d - c));
    }
  }

  /** The maximum over a longer prefix. */
  lemma MaxExtends(s: seq<real>, t: seq<real>)
    ensures MaxOf(Reals(s + t)) == Larger(MaxOf(Reals(s)), MaxOf(Reals(t)))
  {
    assert Reals(s + t) == Reals(s) + Reals(t);
    MaxAppend(Reals(s), Reals(t));
  }

  /** The scores of a chunk as the threads hold them: minus infinity behind the end. */
  ghost predicate ChunkScores(t: seq<real>, score: seq<Ext>) {
    && |t| <= |score|
    && (forall i :: 0 <= i < |t| ==> score[i] == Fin(t[i]))
    && (forall i :: |t| <= i < |score| ==> score[i] == NegInf)
  }

  lemma ChunkMax(t: seq<real>, score: seq<Ext>)
    requires ChunkScores(t, score)
    ensures MaxOf(score) == MaxOf(Reals(t))
  {
    assert score == Reals(t) + score[|t|..];
    MaxAppend(Reals(t), score[|t|..]);
    MaxOfInfinities(score[|t|..]);
  }

  lemma {:induction false} ExpsSum(exp: real -> real, t: seq<real>, c: real, e: seq<real>)
    requires |e| == |t| && forall i :: 0 <= i < |t| ==> e[i] == exp(t[i] - c)
    ensures Sum(e) == Den(exp, t, c)
  {
    if t != [] { ExpsSum(exp, t[..|t| - 1], c, e[..|t| - 1]); }
  }

  lemma {:induction false} ExpsDot(exp: real -> real, t: seq<real>, v: seq<real>, c: real, e: seq<real>)
    requires |e| == |t| == |v| && forall i :: 0 <= i < |t| ==> e[i] == exp(t[i] - c)
    ensures Dot(e, v) == Num(exp, t, v, c)
  {
    if t != [] { ExpsDot(exp, t[..|t| - 1], v[..|t| - 1], c, e[..|t| - 1]); }
  }

  /** The exponentials of all threads, those behind the end included, sum to the chunk's denominator. */
  lemma ChunkDen(exp: real -> real, t: seq<real>, score: seq<Ext>, c: real, e: seq<real>)
    requires ChunkScores(t, score) && |e| == |score|
    requires forall i :: 0 <= i < |e| ==> e[i] == ExpDiff(exp, score[i], c)
    ensures Sum(e) == Den(exp, t, c)
  {
    hide Sum, Den;
    assert e == e[..|t|] + e[|t|..];
    SumAppend(e[..|t|], e[|t|..]);
    SumZeros(e[|t|..]);
    ExpsSum(exp, t, c, e[..|t|]);
  }

  /** State between chunks: maximum, denominators summed over the threads, and one numerator per output
      cell, all over the first `done` positions. */
  ghost predicate Running(exp: real -> real, s: seq<real>, v: View, done: nat, m: Ext, den: seq<real>, acc: seq<real>) {
    && done <= |s| && v.width <= |acc|
    && m == MaxOf(Reals(s[..done]))
    && Sum(den) == DenOf(exp, s[..done], m)
    && forall i :: 0 <= i < v.width ==> acc[i] == NumOf(exp, s[..done], v.Column(|s|, i)[..done], m)
  }

  /** One output cell over one chunk. */
  lemma ColumnStep(exp: real -> real, a: seq<real>, va: seq<real>, t: seq<real>, vt: seq<real>, m: Ext, c: real, e: seq<real>)
    requires IsExp(exp) && |a| == |va| && |t| == |vt| == |e| && m == MaxOf(Reals(a))
    requires forall i :: 0 <= i < |t| ==> e[i] == exp(t[i] - c)
    ensures Mul(NumOf(exp, a, va, m), ExpDiff(exp, m, c)) + Dot(e, vt) == Num(exp, a + t, va + vt, c)
  {
    hide IsExp, Mul, Num, NumOf, Dot, MaxOf, Reals;
    RescaleTo(exp, a, va, m, c);
    NumAppend(exp, a, va, t, vt, c);
    ExpsDot(exp, t, vt, c, e);
  }

  /** The denominators of all threads over one chunk. */
  lemma DenStep(exp: real -> real, a: seq<real>, t: seq<real>, m: Ext, c: real, score: seq<Ext>, e: seq<real>, den: seq<real>, den': seq<real>)
    requires IsExp(exp) && m == MaxOf(Reals(a)) && Sum(den) == DenOf(exp, a, m)
    requires |e| == |score| == |den| == |den'| && ChunkScores(t, score)
    requires forall i :: 0 <= i < |e| ==> e[i] == ExpDiff(exp, score[i], c)
    requires forall i :: 0 <= i < |e| ==> den'[i] == Mul(den[i], ExpDiff(exp, m, c)) + e[i]
    ensures Sum(den') == Den(exp, a + t, c)
  {
    hide IsExp, Mul, Num, Den, Sum, MaxOf, DenOf, Reals;
    SumAffine(den', den, ExpDiff(exp, m, c), e);
    ChunkDen(exp, t, score, c, e);
    RescaleTo(exp, a, a, m, c);
    NumAppend(exp, a, a, t, t, c);
  }

  /** One chunk: with the new maximum, scaled old sums plus the chunk's own exponentials. */
  lemma ChunkStep(exp: real -> real, s: seq<real>, v: View, done: nat, cnt: nat, m: Ext, den: seq<real>, acc: seq<real>,
                  score: seq<Ext>, e: seq<real>, m': Ext, den': seq<real>, acc': seq<real>)
    requires IsExp(exp) && Running(exp, s, v, done, m, den, acc)
    requires done + cnt <= |s| && cnt <= |e| && |e| == |score| == |den| == |den'| && |acc'| == |acc|
    requires ChunkScores(s[done..done + cnt], score)
    requires m' == Larger(m, MaxOf(score)) && m'.Fin?
    requires forall i :: 0 <= i < |e| ==> e[i] == ExpDiff(exp, score[i], m'.x)
    requires forall i :: 0 <= i < |e| ==> den'[i] == Mul(den[i], ExpDiff(exp, m, m'.x)) + e[i]
    requires forall i :: 0 <= i < v.width ==>
      acc'[i] == Mul(acc[i], ExpDiff(exp, m, m'.x)) + Dot(e[..cnt], v.Column(|s|, i)[done..done + cnt])
    ensures Running(exp, s, v, done + cnt, m', den', acc')
  {
    hide IsExp, Mul, Num, Den, Sum, Dot, MaxOf, Reals, View.Column, ChunkScores, ExpDiff, NumOf, DenOf;
    DenRuns(exp, s, done, cnt, m, den, score, e, m', den');
    ExpsOfChunk(exp, s[done..done + cnt], score, m'.x, e);
    forall i | 0 <= i < v.width
      ensures acc'[i] == NumOf(exp, s[..done + cnt], v.Column(|s|, i)[..done + cnt], m')
    {
      ColumnRuns(exp, s, v.Column(|s|, i), done, cnt, m, m'.x, e[..cnt]);
    }
  }

  lemma ExpsOfChunk(exp: real -> real, t: seq<real>, score: seq<Ext>, c: real, e: seq<real>)
    requires ChunkScores(t, score) && |e| == |score| && forall i :: 0 <= i < |e| ==> e[i] == ExpDiff(exp, score[i], c)
    ensures forall i :: 0 <= i < |t| ==> e[..|t|][i] == exp(t[i] - c)
  {
  }

  lemma DenRuns(exp: real -> real, s: seq<real>, done: nat, cnt: nat, m: Ext, den: seq<real>, score: seq<Ext>, e: seq<real>,
                m': Ext, den': seq<real>)
    requires IsExp(exp) && done + cnt <= |s| && m == MaxOf(Reals(s[..done])) && Sum(den) == DenOf(exp, s[..done], m)
    requires |e| == |score| == |den| == |den'| && ChunkScores(s[done..done + cnt], score)
    requires m' == Larger(m, MaxOf(score)) && m'.Fin?
    requires forall i :: 0 <= i < |e| ==> e[i] == ExpDiff(exp, score[i], m'.x)
    requires forall i :: 0 <= i < |e| ==> den'[i] == Mul(den[i], ExpDiff(exp, m, m'.x)) + e[i]
    ensures m' == MaxOf(Reals(s[..done + cnt])) && Sum(den') == DenOf(exp, s[..done + cnt], m')
  {
    hide IsExp, Mul, Den, Sum, MaxOf, Reals, ChunkScores, ExpDiff;
    assert s[..done + cnt] == s[..done] + s[done..done + cnt];
    ChunkMax(s[done..done + cnt], score);
    MaxExtends(s[..done], s[done..done + cnt]);
    DenStep(exp, s[..done], s[done..done + cnt], m, m'.x, score, e, den, den');
  }

  lemma ColumnRuns(exp: real -> real, s: seq<real>, col: seq<real>, done: nat, cnt: nat, m: Ext, c: real, e: seq<real>)
    requires IsExp(exp) && |col| == |s| && done + cnt <= |s| && |e| == cnt && m == MaxOf(Reals(s[..done]))
    requires forall i :: 0 <= i < cnt ==> e[i] == exp(s[done..done + cnt][i] - c)
    ensures Mul(NumOf(exp, s[..done], col[..done], m), ExpDiff(exp, m, c)) + Dot(e, col[done..done + cnt])
      == NumOf(exp, s[..done + cnt], col[..done + cnt], Fin(c))
  {
    hide IsExp, Mul, Num, ExpDiff, Dot, MaxOf, Reals;
    assert s[..done + cnt] == s[..done] + s[done..done + cnt];
    assert col[..done + cnt] == col[..done] + col[done..done + cnt];
    ColumnStep(exp, s[..done], col[..done], s[done..done + cnt], col[done..done + cnt], m, c, e);
  }

  /** After the last chunk, numerator over summed denominators is the reference output. */
  lemma Finished(exp: real -> real, q: seq<real>, k: View, v: View, n: nat, scale: real, m: Ext, den: seq<real>, acc: seq<real>, i: nat)
    requires IsExp(exp) && n > 0 && |q| == k.width && i < v.width
    requires Running(exp, Scores(q, k, n, scale, Identity), v, n, m, den, acc)
    ensures Sum(den) > 0.0
    ensures acc[i] / Sum(den) == HeadOut(exp, q, k, v, n, scale, Identity, i)
  {
    hide IsExp, Num, Den, Sum, MaxOf, Scores;
    var s := Scores(q, k, n, scale, Identity);
    var col := v.Column(n, i);
    assert s[..n] == s && col[..n] == col;
    MaxInfiniteOnlyIfEmpty(s);
    AnyShift(exp, s, col, m.x);
  }

  // ---------------------------------------------------------------------------------
  // Reductions in shared memory
  // ---------------------------------------------------------------------------------

  /** Between two barriers thread t < stride folds cell t + stride into cell t; no thread writes a cell another
      one reads, so all of them step at once. */
  method TreeMax(red: array<Ext>) returns (m: Ext)
    requires red.Length == THREADS
    modifies red
    ensures m == MaxOf(old(red[..]))
  {
    hide MaxOf;
    var stride := 128;
    ghost var live := 256;
    assert red[..256] == red[..];
    while stride != 0
      invariant live in {1, 2, 4, 8, 16, 32, 64, 128, 256} && stride == live / 2
      invariant MaxOf(red[..live]) == MaxOf(old(red[..]))
    {
      ghost var was := red[..live];
      forall t | 0 <= t < stride {
        red[t] := Larger(red[t], red[t + stride]);
      }
      MaxFolds(was, stride, red[..stride]);
      live := stride;
      stride := stride / 2;
    }
    m := red[0];
    assert MaxOf([m]) == m by { MaxOfOne(m); }
    assert red[..1] == [m];
  }

  lemma MaxOfOne(m: Ext)
    ensures MaxOf([m]) == m
  {
    assert [m][..0] == [];
  }

  method TreeSum(red: array<real>) returns (sum: real)
    requires red.Length == THREADS
    modifies red
    ensures sum == Sum(old(red[..]))
  {
    hide Sum;
    var stride := 128;
    ghost var live := 256;
    assert red[..256] == red[..];
    while stride != 0
      invariant live in {1, 2, 4, 8, 16, 32, 64, 128, 256} && stride == live / 2
      invariant Sum(red[..live]) == Sum(old(red[..]))
    {
      ghost var was := red[..live];
      forall t | 0 <= t < stride {
        red[t] := red[t] + red[t + stride];
      }
      SumFolds(was, stride, red[..stride]);
      live := stride;
      stride := stride / 2;
    }
    sum := red[0];
    assert Sum([sum]) == sum by { SumOfOne(sum); }
    assert red[..1] == [sum];
  }

  lemma SumOfOne(x: real)
    ensures Sum([x]) == x
  {
    assert [x][..0] == [];
  }

  // ---------------------------------------------------------------------------------
  // One thread block
  // ---------------------------------------------------------------------------------

  /** Registers of the 256 threads and the block's shared memory. The reduction buffer holds scores during
      the maximum and denominators during the sum: two arrays here, one piece of memory there. */
  class Block {
    const afQ: array<real>
    const afS: array<real>
    const redMax: array<Ext>
    const redSum: array<real>
    const score: array<Ext>
    const den: array<real>
    const acc: array<real>
    var m: Ext

    ghost predicate Valid() {
      && afQ.Length == afS.Length == redMax.Length == redSum.Length == score.Length == den.Length == acc.Length == THREADS
      && {afQ} !! {afS} !! {redSum} !! {den} !! {acc} && redMax != score
    }

    ghost function Repr(): set<object> {
      {this, afQ, afS, redMax, redSum, score, den, acc}
    }

    constructor ()
      ensures Valid() && fresh(Repr())
      ensures m == NegInf
      ensures forall t :: 0 <= t < THREADS ==> den[t] == acc[t] == 0.0
    {
      afQ := new real[THREADS];
      afS := new real[THREADS];
      redMax := new Ext[THREADS](_ => NegInf);
      redSum := new real[THREADS];
      score := new Ext[THREADS](_ => NegInf);
      den := new real[THREADS](_ => 0.0);
      acc := new real[THREADS](_ => 0.0);
      m := NegInf;
    }

    /** Thread t copies cells t, t + 256, ... of the query row. */
    method LoadQuery(q: array<real>, row: nat, headDim: nat)
      requires Valid() && headDim <= THREADS && row + headDim <= q.Length && q !in Repr()
      modifies afQ
      ensures afQ[..headDim] == q[row..row + headDim]
    {
      for t := 0 to THREADS
        invariant forall i :: 0 <= i < t && i < headDim ==> afQ[i] == q[row + i]
      {
        var i := t;
        while i < headDim
          invariant i == t || (i == t + THREADS && (t < headDim ==> afQ[t] == q[row + t]))
          invariant i == t + THREADS || t >= headDim || i == t
          invariant forall j :: 0 <= j < t && j < headDim ==> afQ[j] == q[row + j]
        {
          afQ[i] := q[row + i];
          i := i + THREADS;
        }
      }
    }

    /** Every thread scores one position; behind the end it holds minus infinity. */
    method ScoreChunk(q: seq<real>, k: View, base: nat, n: nat, scale: real)
      requires Valid() && base < n && k.Fits(n) && |q| == k.width <= THREADS && afQ[..k.width] == q
      modifies score, redMax
      ensures redMax[..] == score[..]
      ensures ChunkScores(Scores(q, k, n, scale, Identity)[base..ChunkEnd(base, n)], score[..])
    {
      hide Dot, Mul, Scores;
      ghost var s := Scores(q, k, n, scale, Identity);
      for t := 0 to THREADS
        invariant redMax[..t] == score[..t]
        invariant forall i :: 0 <= i < t && base + i < n ==> score[i] == Fin(s[base + i])
        invariant forall i :: 0 <= i < t && base + i >= n ==> score[i] == NegInf
      {
        var f5 := Score(q, k, base + t, n, scale);
        score[t] := f5;
        redMax[t] := f5;
      }
      assert redMax[..] == redMax[..THREADS] && score[..] == score[..THREADS];
    }

    /** The score of one thread's position. */
    method Score(q: seq<real>, k: View, pos: nat, n: nat, scale: real) returns (f5: Ext)
      requires Valid() && k.Fits(n) && |q| == k.width <= THREADS && afQ[..k.width] == q
      ensures f5 == if pos < n then Fin(Scores(q, k, n, scale, Identity)[pos]) else NegInf
    {
      f5 := NegInf;
      if pos < n {
        var d := DotShared(k, n, pos);
        f5 := Fin(Mul(d, scale));
        assert Scores(q, k, n, scale, Identity)[pos] == Identity(Mul(Dot(q, k.Row(pos)), scale));
      }
    }

    method DotShared(k: View, n: nat, pos: nat) returns (f6: real)
      requires Valid() && k.Fits(n) && pos < n && k.width <= THREADS
      ensures f6 == Dot(afQ[..k.width], k.Row(pos))
    {
      hide Mul;
      f6 := 0.0;
      ghost var row := k.Row(pos);
      k.InRange(n, pos);
      for i := 0 to k.width
        invariant f6 == Dot(afQ[..i], row[..i])
      {
        assert afQ[..i + 1][..i] == afQ[..i] && row[..i + 1][..i] == row[..i];
        f6 := f6 + Mul(afQ[i], k.data[Offset(pos, k.stride) + k.base + i]);
      }
      assert row[..k.width] == row;
    }

    /** Thread t < width adds the chunk's weighted values to its scaled output cell. */
    method Accumulate(v: View, base: nat, n: nat, corr: real)
      requires Valid() && base < n && v.Fits(n) && v.width <= THREADS
      modifies acc
      ensures var cnt := ChunkEnd(base, n) - base; forall i :: 0 <= i < v.width ==>
        acc[i] == Mul(old(acc[i]), corr) + Dot(afS[..cnt], v.Column(n, i)[base..base + cnt])
    {
      hide Mul, Dot;
      var cnt := ChunkEnd(base, n) - base;
      for t := 0 to v.width
        invariant forall i :: t <= i < THREADS ==> acc[i] == old(acc[i])
        invariant forall i :: 0 <= i < t ==>
          acc[i] == Mul(old(acc[i]), corr) + Dot(afS[..cnt], v.Column(n, i)[base..base + cnt])
      {
        var d := WeightedValues(v, base, n, t, cnt, Mul(acc[t], corr));
        acc[t] := d;
      }
    }

    method WeightedValues(v: View, base: nat, n: nat, t: nat, cnt: nat, start: real) returns (f4: real)
      requires Valid() && v.Fits(n) && base + cnt <= n && cnt <= THREADS && t < v.width
      ensures f4 == start + Dot(afS[..cnt], v.Column(n, t)[base..base + cnt])
    {
      hide Mul;
      f4 := start;
      ghost var col := v.Column(n, t);
      for j := 0 to cnt
        invariant f4 == start + Dot(afS[..j], col[base..base + j])
      {
        v.InRange(n, base + j);
        DotStep(afS[..], col, 0, base, j);
        assert afS[..][0..0 + j + 1] == afS[..j + 1] && afS[..][0..0 + j] == afS[..j];
        f4 := f4 + Mul(afS[j], v.data[Offset(base + j, v.stride) + v.base + t]);
      }
    }

    /** Scores, new maximum, rescaled denominators, rescaled accumulators. */
    method Chunk(exp: real -> real, q: seq<real>, k: View, v: View, base: nat, n: nat, scale: real)
      requires Valid() && IsExp(exp) && base < n && k.Fits(n) && v.Fits(n) && |q| == k.width == v.width <= THREADS
      requires afQ[..k.width] == q
      requires Running(exp, Scores(q, k, n, scale, Identity), v, base, m, den[..], acc[..])
      modifies this, afS, redMax, score, den, acc
      ensures Running(exp, Scores(q, k, n, scale, Identity), v, ChunkEnd(base, n), m, den[..], acc[..])
    {
      hide IsExp, Running, Scores, ChunkScores, Mul, Dot, Sum, MaxOf, View.Column, View.Fits;
      ghost var s := Scores(q, k, n, scale, Identity);
      var m0 := m;
      ghost var den0, acc0 := den[..], acc[..];
      ScoreChunk(q, k, base, n, scale);
      ghost var sc := score[..];
      var f9 := TreeMax(redMax);
      m := Larger(m, f9);
      assert m.Fin? by { ChunkHasMax(s, base, ChunkEnd(base, n), sc); }
      var c := m.x;
      var corr := ExpDiff(exp, m0, c);
      forall t | 0 <= t < THREADS {
        afS[t] := ExpDiff(exp, score[t], c);
      }
      forall t | 0 <= t < THREADS {
        den[t] := Mul(den[t], corr) + afS[t];
      }
      Accumulate(v, base, n, corr);
      ChunkStep(exp, s, v, base, ChunkEnd(base, n) - base, m0, den0, acc0, sc, afS[..], m, den[..], acc[..]);
    }

    /** All chunks; afterwards the sums run over all n positions. */
    method Chunks(exp: real -> real, q: seq<real>, k: View, v: View, n: nat, scale: real)
      requires Valid() && IsExp(exp) && k.Fits(n) && v.Fits(n) && |q| == k.width == v.width <= THREADS
      requires n <= WORD - THREADS
      requires afQ[..k.width] == q && m == NegInf
      requires forall t :: 0 <= t < THREADS ==> den[t] == acc[t] == 0.0
      modifies this, afS, redMax, score, den, acc
      ensures Running(exp, Scores(q, k, n, scale, Identity), v, n, m, den[..], acc[..])
    {
      hide IsExp, Running, Scores, View.Column, View.Fits, U32;
      var base := 0;
      NothingYet(exp, Scores(q, k, n, scale, Identity), v, den[..], acc[..]);
      while base < n
        invariant base < n + THREADS && afQ[..k.width] == q
        invariant Running(exp, Scores(q, k, n, scale, Identity), v, if base < n then base else n, m, den[..], acc[..])
      {
        Chunk(exp, q, k, v, base, n, scale);
        U32Small(base + THREADS);
        base := U32(base + THREADS);
      }
    }

    /** Sums the denominators and writes the output row. */
    method Finish(out: array<real>, row: nat, headDim: nat)
      requires Valid() && headDim <= THREADS && row + headDim <= out.Length && out !in Repr() && Sum(den[..]) > 0.0
      modifies redSum, out
      ensures forall i :: 0 <= i < headDim ==> out[row + i] == acc[i] / Sum(den[..])
      ensures forall j :: 0 <= j < out.Length && !(row <= j < row + headDim) ==> out[j] == old(out[j])
    {
      hide Sum;
      ghost var dens := den[..];
      forall t | 0 <= t < THREADS {
        redSum[t] := den[t];
      }
      assert redSum[..] == dens;
      var f9 := TreeSum(redSum);
      assert den[..] == dens;
      forall t | 0 <= t < headDim {
        out[row + t] := acc[t] / f9;
      }
      assert den[..] == dens;
    }
  }

  /** Chunks are 256 positions, the last one what is left. */
  function ChunkEnd(base: nat, n: nat): nat {
    if n - base < THREADS then n else base + THREADS
  }

  lemma ChunkHasMax(s: seq<real>, base: nat, end: nat, score: seq<Ext>)
    requires base < end <= |s| && ChunkScores(s[base..end], score)
    ensures MaxOf(score).Fin?
  {
    ChunkMax(s[base..end], score);
    MaxInfiniteOnlyIfEmpty(s[base..end]);
  }

  lemma NothingYet(exp: real -> real, s: seq<real>, v: View, den: seq<real>, acc: seq<real>)
    requires |den| == |acc| == THREADS && v.width <= THREADS
    requires forall t :: 0 <= t < THREADS ==> den[t] == acc[t] == 0.0
    ensures Running(exp, s, v, 0, NegInf, den, acc)
  {
    SumZeros(den);
  }

  // ---------------------------------------------------------------------------------
  // The kernel
  // ---------------------------------------------------------------------------------

  /** The cell where block (h, qi) of a grid that is nHeads wide finds its query row and writes its output row: 32-bit
      products, which wrap. */
  function RowStart(qi: nat, nHeads: nat, h: nat, headDim: nat): nat {
    U32(Offset(U32(Offset(qi, nHeads) + h), headDim))
  }

  /** Block (h, qi) over q and out rows that start at cells qPtr and oPtr. */
  method AttnFlash(exp: real -> real, q: array<real>, qPtr: nat, kData: seq<real>, vData: seq<real>, out: array<real>, oPtr: nat,
                   seqBase: nat, headDim: nat, kvStride: nat, group: nat, scale: real, h: nat, qi: nat, nHeads: nat)
    requires IsExp(exp) && 0 < group && headDim <= THREADS && q != out
    requires 0 < seqBase + qi <= WORD - THREADS
    requires Offset(h / group, headDim) + headDim <= kvStride < WORD
    requires Offset(seqBase + qi, kvStride) <= |kData| && Offset(seqBase + qi, kvStride) <= |vData|
    requires qPtr + RowStart(qi, nHeads, h, headDim) + headDim <= q.Length
    requires oPtr + RowStart(qi, nHeads, h, headDim) + headDim <= out.Length
    modifies out
    ensures var row := RowStart(qi, nHeads, h, headDim);
      && RowDone(exp, q[qPtr + row..qPtr + row + headDim], View(kData, Offset(h / group, headDim), kvStride, headDim),
                 View(vData, Offset(h / group, headDim), kvStride, headDim), seqBase + qi, scale, Identity, out[..], oPtr + row)
      && OnlyRow(old(out[..]), out[..], oPtr + row, headDim)
  {
    hide IsExp, RowDone, OnlyRow, U32, Offset;
    U32Small(seqBase + qi);
    U32Small(Offset(h / group, headDim));
    var r9 := U32(seqBase + qi);
    var r11 := U32(Offset(h / group, headDim));
    var r12 := U32(Offset(U32(Offset(qi, nHeads) + h), headDim));
    var k := View(kData, r11, kvStride, headDim);
    var v := View(vData, r11, kvStride, headDim);
    assert k.Fits(r9) && v.Fits(r9);
    RunBlock(exp, q, qPtr + r12, k, v, r9, scale, out, oPtr + r12);
  }

  /** The 32-bit position counter goes up by 256. It passes n, and the chunk loop ends, if and only if n is at most
      2^32 - 256. */
  lemma ChunkLoopEnds(n: nat)
    ensures (exists i: nat :: U32(Offset(i, THREADS)) >= n) <==> n <= WORD - THREADS
  {
    forall i: nat ensures U32(Offset(i, THREADS)) <= WORD - THREADS {
      CounterStays(i);
    }
    assert U32(Offset(0xFF_FFFF, THREADS)) == WORD - THREADS;
  }

  lemma CounterStays(i: nat)
    ensures U32(Offset(i, THREADS)) <= WORD - THREADS
  {
    assert (i * 256) % 256 == 0;
    var w := i * 256 / WORD;
    assert U32(i * 256) == i * 256 - w * WORD == 256 * (i - w * 0x100_0000);
  }

  method RunBlock(exp: real -> real, q: array<real>, at: nat, k: View, v: View, n: nat, scale: real, out: array<real>, to: nat)
    requires IsExp(exp) && 0 < n <= WORD - THREADS && k.Fits(n) && v.Fits(n) && k.width == v.width <= THREADS && q != out
    requires at + k.width <= q.Length && to + v.width <= out.Length
    modifies out
    ensures RowDone(exp, q[at..at + k.width], k, v, n, scale, Identity, out[..], to)
    ensures OnlyRow(old(out[..]), out[..], to, v.width)
  {
    hide IsExp, HeadOut, Running, Sum, Scores, RowDone, View.Fits;
    var block := new Block();
    block.LoadQuery(q, at, k.width);
    var qs := q[at..at + k.width];
    block.Chunks(exp, qs, k, v, n, scale);
    DenLives(exp, Scores(qs, k, n, scale, Identity), v, block.m, block.den[..], block.acc[..]);
    block.Finish(out, to, k.width);
    FinishedRow(exp, qs, k, v, n, scale, block.m, block.den[..], block.acc[..], out[..], to);
  }

  lemma DenLives(exp: real -> real, s: seq<real>, v: View, m: Ext, den: seq<real>, acc: seq<real>)
    requires IsExp(exp) && s != [] && Running(exp, s, v, |s|, m, den, acc)
    ensures Sum(den) > 0.0
  {
    hide IsExp, Den, Sum, MaxOf, Num;
    assert s[..|s|] == s;
    MaxInfiniteOnlyIfEmpty(s);
    DenPositive(exp, s, m.x);
  }

  lemma FinishedRow(exp: real -> real, q: seq<real>, k: View, v: View, n: nat, scale: real, m: Ext, den: seq<real>, acc: seq<real>,
                    out: seq<real>, at: nat)
    requires IsExp(exp) && n > 0 && |q| == k.width && at + v.width <= |out| && v.width <= |acc| && Sum(den) > 0.0
    requires Running(exp, Scores(q, k, n, scale, Identity), v, n, m, den, acc)
    requires forall i :: 0 <= i < v.width ==> out[at + i] == acc[i] / Sum(den)
    ensures RowDone(exp, q, k, v, n, scale, Identity, out, at)
  {
    hide IsExp, HeadOut, Running, Sum, Scores;
    forall i | 0 <= i < v.width ensures out[at + i] == HeadOut(exp, q, k, v, n, scale, Identity, i) {
      Finished(exp, q, k, v, n, scale, m, den, acc, i);
    }
  }
}
