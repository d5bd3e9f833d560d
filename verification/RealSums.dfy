/** Sums, dot products and maxima over sequences of reals, and what a halving tree makes of them. */
module RealSums {

  function Sum(s: seq<real>): real {
    if s == [] then 0.0 else Sum(s[..|s| - 1]) + s[|s| - 1]
  }

  /** Multiplication, as a name that proofs can hide. */
  function Mul(x: real, y: real): real { x * y }

  function Dot(a: seq<real>, b: seq<real>): real
    requires |a| == |b|
  {
    if a == [] then 0.0 else Dot(a[..|a| - 1], b[..|b| - 1]) + Mul(a[|a| - 1], b[|b| - 1])
  }

  lemma MulSum(a: real, b: real, f: real)
    ensures Mul(a + b, f) == Mul(a, f) + Mul(b, f)
    ensures Mul(f, a + b) == Mul(f, a) + Mul(f, b)
  {
  }

  lemma MulOrder(a: real, b: real, c: real)
    ensures Mul(Mul(a, b), c) == Mul(a, Mul(b, c)) == Mul(Mul(a, c), b)
  {
  }

  lemma MulSwap(a: real, b: real)
    ensures Mul(a, b) == Mul(b, a)
  {
  }

  lemma MulUnits(a: real)
    ensures Mul(a, 0.0) == Mul(0.0, a) == 0.0 && Mul(a, 1.0) == Mul(1.0, a) == a
  {
  }

  /** A real or minus infinity. */
  datatype Ext = NegInf | Fin(x: real)

  function Larger(a: Ext, b: Ext): Ext {
    match (a, b)
    case (NegInf, _) => b
    case (_, NegInf) => a
    case (Fin(x), Fin(y)) => if x >= y then a else b
  }

  function MaxOf(s: seq<Ext>): Ext {
    if s == [] then NegInf else Larger(MaxOf(s[..|s| - 1]), s[|s| - 1])
  }

  function Reals(s: seq<real>): seq<Ext> {
    seq(|s|, i requires 0 <= i < |s| => Fin(s[i]))
  }

  lemma {:induction false} SumAppend(a: seq<real>, b: seq<real>)
    ensures Sum(a + b) == Sum(a) + Sum(b)
  {
    if b == [] {
      assert a + b == a;
    } else {
      SumAppend(a, b[..|b| - 1]);
      assert (a + b)[..|a + b| - 1] == a + b[..|b| - 1];
    }
  }

  lemma {:induction false} SumAffine(out: seq<real>, s: seq<real>, factor: real, e: seq<real>)
    requires |out| == |s| == |e| && forall i :: 0 <= i < |s| ==> out[i] == Mul(s[i], factor) + e[i]
    ensures Sum(out) == Mul(Sum(s), factor) + Sum(e)
  {
    hide Mul;
    if s == [] {
      MulUnits(factor);
    } else {
      SumAffine(out[..|s| - 1], s[..|s| - 1], factor, e[..|s| - 1]);
      MulSum(Sum(s[..|s| - 1]), s[|s| - 1], factor);
    }
  }

  lemma {:induction false} SumZeros(s: seq<real>)
    requires forall i :: 0 <= i < |s| ==> s[i] == 0.0
    ensures Sum(s) == 0.0
  {
    if s != [] { SumZeros(s[..|s| - 1]); }
  }

  /** Adding the upper half to the lower half, cell by cell, keeps the sum. */
  lemma SumFolds(s: seq<real>, n: nat, folded: seq<real>)
    requires |s| == 2 * n && |folded| == n && forall i :: 0 <= i < n ==> folded[i] == s[i] + s[i + n]
    ensures Sum(folded) == Sum(s)
  {
    hide Sum;
    assert s == s[..n] + s[n..];
    SumAppend(s[..n], s[n..]);
    SumAffine(folded, s[..n], 1.0, s[n..]);
  }

  lemma {:induction false} MaxAppend(a: seq<Ext>, b: seq<Ext>)
    ensures MaxOf(a + b) == Larger(MaxOf(a), MaxOf(b))
  {
    if b == [] {
      assert a + b == a;
    } else {
      MaxAppend(a, b[..|b| - 1]);
      assert (a + b)[..|a + b| - 1] == a + b[..|b| - 1];
    }
  }

  lemma {:induction false} MaxPairs(out: seq<Ext>, a: seq<Ext>, b: seq<Ext>)
    requires |out| == |a| == |b| && forall i :: 0 <= i < |a| ==> out[i] == Larger(a[i], b[i])
    ensures MaxOf(out) == Larger(MaxOf(a), MaxOf(b))
  {
    if a != [] {
      MaxPairs(out[..|a| - 1], a[..|a| - 1], b[..|a| - 1]);
    }
  }

  /** The same for the maximum. */
  lemma MaxFolds(s: seq<Ext>, n: nat, folded: seq<Ext>)
    requires |s| == 2 * n && |folded| == n && forall i :: 0 <= i < n ==> folded[i] == Larger(s[i], s[i + n])
    ensures MaxOf(folded) == MaxOf(s)
  {
    assert s == s[..n] + s[n..];
    MaxAppend(s[..n], s[n..]);
    MaxPairs(folded, s[..n], s[n..]);
  }

  lemma {:induction false} MaxOfInfinities(s: seq<Ext>)
    requires forall i :: 0 <= i < |s| ==> s[i] == NegInf
    ensures MaxOf(s) == NegInf
  {
    if s != [] { MaxOfInfinities(s[..|s| - 1]); }
  }

  /** The maximum is an element and an upper bound. */
  lemma {:induction false} MaxIsLargest(s: seq<real>)
    requires s != []
    ensures MaxOf(Reals(s)).Fin? && MaxOf(Reals(s)).x in s
    ensures forall i :: 0 <= i < |s| ==> s[i] <= MaxOf(Reals(s)).x
  {
    var n := |s| - 1;
    assert Reals(s)[..n] == Reals(s[..n]);
    if n > 0 {
      MaxIsLargest(s[..n]);
      assert forall i :: 0 <= i < n ==> s[i] == s[..n][i];
    }
  }

  /** One more product. */
  lemma DotStep(a: seq<real>, b: seq<real>, i: nat, j: nat, n: nat)
    requires i + n < |a| && j + n < |b|
    ensures Dot(a[i..i + n + 1], b[j..j + n + 1]) == Dot(a[i..i + n], b[j..j + n]) + Mul(a[i + n], b[j + n])
  {
    assert a[i..i + n + 1][..n] == a[i..i + n];
    assert b[j..j + n + 1][..n] == b[j..j + n];
  }
}
