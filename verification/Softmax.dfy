/** The reference attention of the CPU path: scores, softmax in place, weighted sum of the values. */
module Softmax {
  import opened Offsets
  import opened RealSums

  /** All that is used of the exponential: it is positive and turns sums into products. */
  ghost predicate IsExp(exp: real -> real) {
    && (forall x :: exp(x) > 0.0)
    && (forall x, y :: exp(x + y) == exp(x) * exp(y))
  }

  lemma ExpPositive(exp: real -> real, x: real)
    requires IsExp(exp)
    ensures exp(x) > 0.0
  {
  }

  /** exp(z) as a product, for z = x + y. */
  lemma ExpSplits(exp: real -> real, z: real, x: real, y: real)
    requires IsExp(exp) && z == x + y
    ensures exp(z) == Mul(exp(x), exp(y))
  {
    assert exp(x + y) == exp(x) * exp(y);
  }

  /** Sum of exp(s_t - c) * v_t. */
  function Num(exp: real -> real, s: seq<real>, v: seq<real>, c: real): real
    requires |s| == |v|
  {
    if s == [] then 0.0
    else Num(exp, s[..|s| - 1], v[..|s| - 1], c) + Mul(exp(s[|s| - 1] - c), v[|s| - 1])
  }

  /** Sum of exp(s_t - c). */
  function Den(exp: real -> real, s: seq<real>, c: real): real {
    if s == [] then 0.0 else Den(exp, s[..|s| - 1], c) + exp(s[|s| - 1] - c)
  }

  /** The softmax-weighted sum of the values. */
  ghost function Attend(exp: real -> real, s: seq<real>, v: seq<real>): real
    requires IsExp(exp) && s != [] && |s| == |v|
  {
    DenPositive(exp, s, 0.0);
    Num(exp, s, v, 0.0) / Den(exp, s, 0.0)
  }

  lemma {:induction false} DenPositive(exp: real -> real, s: seq<real>, c: real)
    requires IsExp(exp)
    ensures Den(exp, s, c) >= 0.0 && (s != [] ==> Den(exp, s, c) > 0.0)
  {
    hide IsExp;
    if s != [] {
      DenPositive(exp, s[..|s| - 1], c);
      ExpPositive(exp, s[|s| - 1] - c);
    }
  }

  /** Subtracting another constant from the scores rescales both sums by the same factor. */
  lemma {:induction false} Rescale(exp: real -> real, s: seq<real>, v: seq<real>, c: real, d: real)
    requires IsExp(exp) && |s| == |v|
    ensures Num(exp, s, v, d) == Mul(exp(c - d), Num(exp, s, v, c))
    ensures Den(exp, s, d) == Mul(exp(c - d), Den(exp, s, c))
  {
    hide IsExp, Mul;
    var f := exp(c - d);
    if s == [] {
      MulUnits(f);
    } else {
      var n := |s| - 1;
      Rescale(exp, s[..n], v[..n], c, d);
      ExpSplits(exp, s[n] - d, c - d, s[n] - c);
      MulOrder(f, exp(s[n] - c), v[n]);
      MulSum(Num(exp, s[..n], v[..n], c), Mul(exp(s[n] - c), v[n]), f);
      MulSum(Den(exp, s[..n], c), exp(s[n] - c), f);
    }
  }

  /** Hence any constant gives the same weighted sum. */
  lemma AnyShift(exp: real -> real, s: seq<real>, v: seq<real>, c: real)
    requires IsExp(exp) && s != [] && |s| == |v|
    ensures Den(exp, s, c) > 0.0
    ensures Num(exp, s, v, c) / Den(exp, s, c) == Attend(exp, s, v)
  {
    hide IsExp, Num, Den;
    Rescale(exp, s, v, 0.0, c);
    ExpPositive(exp, 0.0 - c);
    DenPositive(exp, s, 0.0);
    DenPositive(exp, s, c);
    Cancel(exp(0.0 - c), Num(exp, s, v, 0.0), Den(exp, s, 0.0));
  }

  lemma Cancel(f: real, a: real, b: real)
    requires f > 0.0 && b > 0.0
    ensures Mul(f, b) > 0.0 && Mul(f, a) / Mul(f, b) == a / b
  {
    var q := a / b;
    assert q * b == a;
    assert q * (f * b) == f * a;
  }

  // ---------------------------------------------------------------------------------
  // The K or V rows of one head inside a cache
  // ---------------------------------------------------------------------------------

  /** Position t starts at t * stride + base and is `width` cells long. */
  datatype View = View(data: seq<real>, base: nat, stride: nat, width: nat) {
    predicate Fits(n: nat) {
      base + width <= stride && Offset(n, stride) <= |data|
    }

    function At(t: nat, i: nat): real {
      var a := Offset(t, stride) + base + i;
      if a < |data| then data[a] else 0.0
    }

    /** Every cell that attention over n positions touches is there. */
    lemma InRange(n: nat, t: nat)
      requires Fits(n) && t < n
      ensures Offset(t, stride) + base + width <= |data|
    {
      assert (t + 1) * stride <= n * stride;
    }

    function Row(t: nat): seq<real> {
      seq(width, i requires 0 <= i < width => At(t, i))
    }

    function Column(n: nat, i: nat): (col: seq<real>)
      ensures |col| == n
    {
      seq(n, t requires 0 <= t < n => At(t, i))
    }
  }

  /** Scaled scores of one query against positions 0..n, with the score cap of some architectures. */
  function Scores(q: seq<real>, k: View, n: nat, scale: real, cap: real -> real): (s: seq<real>)
    requires |q| == k.width
    ensures |s| == n
  {
    seq(n, t requires 0 <= t < n => cap(Mul(Dot(q, k.Row(t)), scale)))
  }

  /** What one head contributes to output cell i. */
  ghost function HeadOut(exp: real -> real, q: seq<real>, k: View, v: View, n: nat, scale: real, cap: real -> real, i: nat): real
    requires IsExp(exp) && n > 0 && |q| == k.width
  {
    Attend(exp, Scores(q, k, n, scale, cap), v.Column(n, i))
  }

  /** The output row of one query and head, written at cell `at`. */
  ghost predicate RowDone(exp: real -> real, q: seq<real>, k: View, v: View, n: nat, scale: real, cap: real -> real, out: seq<real>, at: nat)
    requires IsExp(exp) && n > 0 && |q| == k.width
  {
    && at + v.width <= |out|
    && forall i :: 0 <= i < v.width ==> out[at + i] == HeadOut(exp, q, k, v, n, scale, cap, i)
  }

  /** Nothing outside one row changed. */
  ghost predicate OnlyRow(was: seq<real>, now: seq<real>, at: nat, width: nat) {
    && |now| == |was|
    && forall j :: 0 <= j < |now| && !(at <= j < at + width) ==> now[j] == was[j]
  }

  /** No score cap. */
  function Identity(x: real): real { x }

  // ---------------------------------------------------------------------------------
  // The CPU reference
  // ---------------------------------------------------------------------------------

  method Max(x: array<real>, n: nat) returns (m: real)
    requires 0 < n <= x.Length
    ensures Fin(m) == MaxOf(Reals(x[..n]))
  {
    m := x[0];
    for i := 1 to n
      invariant Fin(m) == MaxOf(Reals(x[..i]))
    {
      assert Reals(x[..i + 1])[..i] == Reals(x[..i]);
      if x[i] > m { m := x[i]; }
    }
  }

  /** The first i of n cells hold their exponentials, the others what they held. */
  ghost predicate ExpUpTo(exp: real -> real, was: seq<real>, maxVal: real, i: nat, now: seq<real>) {
    && i <= |was| == |now|
    && (forall j :: 0 <= j < i ==> now[j] == exp(was[j] - maxVal))
    && (forall j :: i <= j < |was| ==> now[j] == was[j])
  }

  lemma ExpOneMore(exp: real -> real, was: seq<real>, maxVal: real, i: nat, now: seq<real>)
    requires ExpUpTo(exp, was, maxVal, i, now) && i < |was|
    ensures now[i] == was[i]
    ensures ExpUpTo(exp, was, maxVal, i + 1, now[i := exp(was[i] - maxVal)])
    ensures Den(exp, was[..i + 1], maxVal) == Den(exp, was[..i], maxVal) + exp(was[i] - maxVal)
  {
    assert was[..i + 1][..i] == was[..i];
  }

  /** Replaces one cell by its exponential. */
  method ExpCell(exp: real -> real, x: array<real>, i: nat, maxVal: real, ghost was: seq<real>) returns (e: real)
    requires i < x.Length && ExpUpTo(exp, was, maxVal, i, x[..])
    modifies x
    ensures ExpUpTo(exp, was, maxVal, i + 1, x[..])
    ensures Den(exp, was[..i + 1], maxVal) == Den(exp, was[..i], maxVal) + e
  {
    ExpOneMore(exp, was, maxVal, i, x[..]);
    e := exp(x[i] - maxVal);
    x[i] := e;
    assert x[..] == old(x[..])[i := e];
  }

  /** Replaces the first n cells by exp(x - maxVal) and returns their sum; four cells per round. */
  method SoftmaxExpInPlace(exp: real -> real, x: array<real>, n: nat, maxVal: real) returns (sum: real)
    requires n <= x.Length
    modifies x
    ensures ExpUpTo(exp, old(x[..]), maxVal, n, x[..])
    ensures sum == Den(exp, old(x[..n]), maxVal)
  {
    hide ExpUpTo, Den;
    sum := 0.0;
    var i := 0;
    ghost var was := x[..];
    assert ExpUpTo(exp, was, maxVal, 0, x[..]) && Den(exp, was[..0], maxVal) == 0.0 by {
      ExpNone(exp, was, maxVal);
    }
    while i + 3 < n
      invariant 0 <= i <= n && ExpUpTo(exp, was, maxVal, i, x[..]) && sum == Den(exp, was[..i], maxVal)
    {
      for j := 0 to 4
        invariant ExpUpTo(exp, was, maxVal, i + j, x[..]) && sum == Den(exp, was[..i + j], maxVal)
      {
        var e := ExpCell(exp, x, i + j, maxVal, was);
        sum := sum + e;
      }
      i := i + 4;
    }
    while i < n
      invariant 0 <= i <= n && ExpUpTo(exp, was, maxVal, i, x[..]) && sum == Den(exp, was[..i], maxVal)
    {
      var e := ExpCell(exp, x, i, maxVal, was);
      sum := sum + e;
      i := i + 1;
    }
    assert was[..n] == old(x[..n]);
  }

  lemma ExpNone(exp: real -> real, was: seq<real>, maxVal: real)
    ensures ExpUpTo(exp, was, maxVal, 0, was) && Den(exp, was[..0], maxVal) == 0.0
  {
  }

  /** w are the exponentials of the scores s, shifted by c and scaled by inv. */
  ghost predicate Weights(exp: real -> real, s: seq<real>, c: real, inv: real, w: seq<real>) {
    |w| == |s| && forall i :: 0 <= i < |s| ==> w[i] == Mul(exp(s[i] - c), inv)
  }

  lemma {:induction false} ScaledDot(exp: real -> real, s: seq<real>, v: seq<real>, c: real, inv: real, w: seq<real>)
    requires |s| == |v| && Weights(exp, s, c, inv, w)
    ensures Dot(w, v) == Mul(Num(exp, s, v, c), inv)
  {
    hide Mul;
    if s == [] {
      MulUnits(inv);
    } else {
      var n := |s| - 1;
      ScaledDot(exp, s[..n], v[..n], c, inv, w[..n]);
      MulOrder(exp(s[n] - c), inv, v[n]);
      MulSum(Num(exp, s[..n], v[..n], c), Mul(exp(s[n] - c), v[n]), inv);
    }
  }

  lemma {:induction false} ScaledSum(exp: real -> real, s: seq<real>, c: real, inv: real, w: seq<real>)
    requires Weights(exp, s, c, inv, w)
    ensures Sum(w) == Mul(Den(exp, s, c), inv)
  {
    hide Mul;
    if s == [] {
      MulUnits(inv);
    } else {
      var n := |s| - 1;
      ScaledSum(exp, s[..n], c, inv, w[..n]);
      MulSum(Den(exp, s[..n], c), exp(s[n] - c), inv);
    }
  }

  /** The weights after normalisation: they sum to one, and the weighted sum of any values is Attend. */
  ghost predicate IsSoftmax(exp: real -> real, s: seq<real>, w: seq<real>)
    requires IsExp(exp)
  {
    && |w| == |s|
    && (s != [] ==> Sum(w) == 1.0)
    && forall v: seq<real> :: s != [] && |v| == |s| ==> Dot(w, v) == Attend(exp, s, v)
  }

  lemma WeightsAreSoftmax(exp: real -> real, s: seq<real>, c: real, w: seq<real>)
    requires IsExp(exp) && s != [] && Den(exp, s, c) > 0.0 && Weights(exp, s, c, 1.0 / Den(exp, s, c), w)
    ensures IsSoftmax(exp, s, w)
  {
    hide IsExp, Num, Den, Dot, Sum, Weights, Attend;
    var den := Den(exp, s, c);
    var inv := 1.0 / den;
    assert den * inv == 1.0;
    ScaledSum(exp, s, c, inv, w);
    assert |w| == |s| by { WeightsLength(exp, s, c, inv, w); }
    forall v: seq<real> | |v| == |s| ensures Dot(w, v) == Attend(exp, s, v) {
      ScaledDot(exp, s, v, c, inv, w);
      AnyShift(exp, s, v, c);
    }
  }

  lemma SoftmaxAttends(exp: real -> real, s: seq<real>, w: seq<real>, v: seq<real>)
    requires IsExp(exp) && IsSoftmax(exp, s, w) && s != [] && |v| == |s|
    ensures |w| == |s| && Dot(w, v) == Attend(exp, s, v)
  {
  }

  lemma WeightsLength(exp: real -> real, s: seq<real>, c: real, inv: real, w: seq<real>)
    requires Weights(exp, s, c, inv, w)
    ensures |w| == |s|
  {
  }

  /** Numerically stable softmax of the first n cells. */
  method SoftmaxInPlace(exp: real -> real, x: array<real>, n: nat)
    requires IsExp(exp) && n <= x.Length
    modifies x
    ensures forall i :: n <= i < x.Length ==> x[i] == old(x[i])
    ensures n > 0 ==> IsSoftmax(exp, old(x[..n]), x[..n])
  {
    hide IsExp, Den, IsSoftmax, Sum, Weights, Mul;
    if n == 0 { return; }
    var maxVal := Max(x, n);
    ghost var s := x[..n];
    var sum := SoftmaxExpInPlace(exp, x, n, maxVal);
    DenPositive(exp, s, maxVal);
    assert sum > 0.0; // so the source's early return on a zero sum is dead over reals
    ghost var e := x[..n];
    ScaleInPlace(x, n, 1.0 / sum);
    ScaledExps(exp, s, maxVal, 1.0 / sum, e, x[..n]);
    WeightsAreSoftmax(exp, s, maxVal, x[..n]);
  }

  lemma ScaledExps(exp: real -> real, s: seq<real>, c: real, f: real, e: seq<real>, w: seq<real>)
    requires |s| == |e| == |w|
    requires forall i :: 0 <= i < |s| ==> e[i] == exp(s[i] - c)
    requires forall i :: 0 <= i < |s| ==> w[i] == Mul(e[i], f)
    ensures Weights(exp, s, c, f, w)
  {
  }

  method ScaleInPlace(x: array<real>, n: nat, f: real)
    requires n <= x.Length
    modifies x
    ensures forall i :: 0 <= i < n ==> x[i] == Mul(old(x[i]), f)
    ensures forall i :: n <= i < x.Length ==> x[i] == old(x[i])
  {
    hide Mul;
    for i := 0 to n
      invariant forall j :: 0 <= j < i ==> x[j] == Mul(old(x[j]), f)
      invariant forall j :: i <= j < x.Length ==> x[j] == old(x[j])
    {
      x[i] := Mul(x[i], f);
    }
  }

  /** Strided dot product of the first n weights with a column of V. */
  method DotStride(w: array<real>, v: View, n: nat, i: nat) returns (r: real)
    requires n <= w.Length && v.Fits(n) && i < v.width
    ensures r == Dot(w[..n], v.Column(n, i))
  {
    r := 0.0;
    hide Mul;
    ghost var col := v.Column(n, i);
    for t := 0 to n
      invariant r == Dot(w[..t], col[..t])
    {
      assert w[..t + 1][..t] == w[..t] && col[..t + 1][..t] == col[..t];
      v.InRange(n, t);
      r := r + Mul(w[t], v.data[Offset(t, v.stride) + v.base + i]);
    }
    assert col[..n] == col;
  }

  /** First pass: the scaled scores. */
  method FillScores(q: seq<real>, k: View, headScores: array<real>, seqLen: nat, scale: real, cap: real -> real)
    requires k.Fits(seqLen) && |q| == k.width && seqLen <= headScores.Length
    modifies headScores
    ensures headScores[..seqLen] == Scores(q, k, seqLen, scale, cap)
  {
    hide Dot, Mul;
    ghost var s := Scores(q, k, seqLen, scale, cap);
    for t := 0 to seqLen
      invariant headScores[..t] == s[..t]
    {
      k.InRange(seqLen, t);
      headScores[t] := cap(Mul(Dot(q, k.Row(t)), scale));
      assert headScores[..t + 1] == headScores[..t] + [s[t]];
    }
  }

  /** One head of the reference: scores and their softmax in a scratch buffer, then the weighted sums. */
  method AttentionOneHead(exp: real -> real, dst: array<real>, outOff: nat, q: seq<real>, k: View, v: View,
                          headScores: array<real>, seqLen: nat, scale: real, cap: real -> real)
    requires IsExp(exp) && seqLen > 0 && k.Fits(seqLen) && v.Fits(seqLen) && |q| == k.width
    requires seqLen <= headScores.Length && outOff + v.width <= dst.Length && dst != headScores
    modifies dst, headScores
    ensures RowDone(exp, q, k, v, seqLen, scale, cap, dst[..], outOff)
    ensures OnlyRow(old(dst[..]), dst[..], outOff, v.width)
  {
    hide IsExp, Attend, IsSoftmax, Dot, Scores;
    FillScores(q, k, headScores, seqLen, scale, cap);
    ghost var s := headScores[..seqLen];
    SoftmaxInPlace(exp, headScores, seqLen);
    ghost var w := headScores[..seqLen];
    for i := 0 to v.width
      invariant headScores[..seqLen] == w
      invariant forall j :: 0 <= j < i ==> dst[outOff + j] == HeadOut(exp, q, k, v, seqLen, scale, cap, j)
      invariant forall j :: 0 <= j < dst.Length && !(outOff <= j < outOff + i) ==> dst[j] == old(dst[j])
    {
      var x := DotStride(headScores, v, seqLen, i);
      SoftmaxAttends(exp, s, w, v.Column(seqLen, i));
      dst[outOff + i] := x;
    }
  }
}
