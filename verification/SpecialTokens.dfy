/** Cutting a text at its special tokens: at every position the longest one wins. */
module SpecialTokens {
  import opened Utf8

  datatype Segment = Segment(text: Str, isSpecial: bool)

  predicate Starts(tok: Str, text: Str, pos: nat)
    requires pos <= |text|
  {
    pos + |tok| <= |text| && text[pos..pos + |tok|] == tok
  }

  ghost predicate SomeStarts(special: seq<Str>, text: Str, pos: nat)
    requires pos <= |text|
  {
    exists t :: t in special && Starts(t, text, pos)
  }

  /** A special segment is a longest special token at its position. A plain one has no special token starting
      anywhere in it, even one that would reach beyond it, and goes on until the text ends or one starts. */
  ghost predicate SegmentAt(text: Str, special: seq<Str>, pos: nat, g: Segment)
    requires pos <= |text|
  {
    && g.text != [] && Starts(g.text, text, pos)
    && if g.isSpecial then
         && g.text in special
         && forall t :: t in special && Starts(t, text, pos) ==> |t| <= |g.text|
       else
         && (forall p :: pos <= p < pos + |g.text| ==> !SomeStarts(special, text, p))
         && (pos + |g.text| == |text| || SomeStarts(special, text, pos + |g.text|))
  }

  /** The segments lead from one position to the other. */
  ghost predicate Splits(text: Str, special: seq<Str>, from: nat, segs: seq<Segment>, to: nat)
    requires from <= |text|
    decreases |segs|
  {
    if segs == [] then from == to
    else SegmentAt(text, special, from, segs[0]) && Splits(text, special, from + |segs[0].text|, segs[1..], to)
  }

  /** There is one segment at a position. */
  lemma SegmentUnique(text: Str, special: seq<Str>, pos: nat, g: Segment, h: Segment)
    requires pos <= |text| && SegmentAt(text, special, pos, g) && SegmentAt(text, special, pos, h)
    ensures g == h
  {
    SegmentKind(text, special, pos, g);
    SegmentKind(text, special, pos, h);
    AtLeastAsLong(text, special, pos, g, h);
    AtLeastAsLong(text, special, pos, h, g);
  }

  lemma SegmentKind(text: Str, special: seq<Str>, pos: nat, g: Segment)
    requires pos <= |text| && SegmentAt(text, special, pos, g)
    ensures g.isSpecial <==> SomeStarts(special, text, pos)
  {
  }

  lemma AtLeastAsLong(text: Str, special: seq<Str>, pos: nat, g: Segment, h: Segment)
    requires pos <= |text| && SegmentAt(text, special, pos, g) && SegmentAt(text, special, pos, h) && g.isSpecial == h.isSpecial
    ensures |h.text| <= |g.text|
  {
  }

  /** Hence one way to split a text. */
  lemma {:induction false} SplitOneWay(text: Str, special: seq<Str>, from: nat, a: seq<Segment>, b: seq<Segment>)
    requires from <= |text| && Splits(text, special, from, a, |text|) && Splits(text, special, from, b, |text|)
    ensures a == b
    decreases |a|
  {
    hide SegmentAt;
    if a != [] && b != [] {
      SegmentUnique(text, special, from, a[0], b[0]);
      SegmentProgress(text, special, from, a);
      SplitOneWay(text, special, from + |a[0].text|, a[1..], b[1..]);
    } else if a != [] {
      SegmentProgress(text, special, from, a);
    } else if b != [] {
      SegmentProgress(text, special, from, b);
    }
  }

  lemma SegmentProgress(text: Str, special: seq<Str>, from: nat, segs: seq<Segment>)
    requires from <= |text| && segs != [] && SegmentAt(text, special, from, segs[0])
    ensures from < from + |segs[0].text| <= |text|
  {
  }

  lemma {:induction false} SplitsMore(text: Str, special: seq<Str>, from: nat, segs: seq<Segment>, to: nat, g: Segment)
    requires from <= |text| && Splits(text, special, from, segs, to)
    requires to <= |text| && SegmentAt(text, special, to, g)
    ensures Splits(text, special, from, segs + [g], to + |g.text|)
    decreases |segs|
  {
    hide SegmentAt;
    if segs == [] {
      SegmentProgress(text, special, to, [g]);
      assert (segs + [g])[1..] == [];
    } else {
      SegmentProgress(text, special, from, segs);
      SplitsMore(text, special, from + |segs[0].text|, segs[1..], to, g);
      assert (segs + [g])[1..] == segs[1..] + [g];
    }
  }

  function Width(segs: seq<Segment>): nat {
    if segs == [] then 0 else Width(segs[..|segs| - 1]) + |segs[|segs| - 1].text|
  }

  /** The k-th segment is the one at the end of those before it. */
  lemma {:induction false} SegmentsInPlace(text: Str, special: seq<Str>, segs: seq<Segment>, to: nat, k: nat)
    requires Splits(text, special, 0, segs, to) && k < |segs|
    ensures Width(segs[..k]) <= |text| && SegmentAt(text, special, Width(segs[..k]), segs[k])
  {
    hide SegmentAt;
    InPlace(text, special, 0, segs, to, k);
    assert segs[..0] == [];
  }

  lemma {:induction false} InPlace(text: Str, special: seq<Str>, from: nat, segs: seq<Segment>, to: nat, k: nat)
    requires from <= |text| && Splits(text, special, from, segs, to) && k < |segs|
    ensures from + Width(segs[..k]) <= |text| && SegmentAt(text, special, from + Width(segs[..k]), segs[k])
    decreases k
  {
    hide SegmentAt;
    if k > 0 {
      SegmentProgress(text, special, from, segs);
      InPlace(text, special, from + |segs[0].text|, segs[1..], to, k - 1);
      assert segs[..k] == [segs[0]] + segs[1..][..k - 1];
      WidthCons(segs[0], segs[1..][..k - 1]);
    }
  }

  lemma {:induction false} WidthCons(g: Segment, segs: seq<Segment>)
    ensures Width([g] + segs) == |g.text| + Width(segs)
  {
    if segs == [] {
      assert [g] + segs == [g] && [g][..0] == [];
    } else {
      WidthCons(g, segs[..|segs| - 1]);
      assert ([g] + segs)[..|segs|] == [g] + segs[..|segs| - 1];
    }
  }

  lemma {:induction false} WidthTotal(text: Str, special: seq<Str>, from: nat, segs: seq<Segment>, to: nat)
    requires from <= |text| && Splits(text, special, from, segs, to)
    ensures from + Width(segs) == to <= |text|
    decreases |segs|
  {
    hide SegmentAt;
    if segs != [] {
      SegmentProgress(text, special, from, segs);
      WidthTotal(text, special, from + |segs[0].text|, segs[1..], to);
      assert segs == [segs[0]] + segs[1..];
      WidthCons(segs[0], segs[1..]);
    }
  }

  // ---------------------------------------------------------------------------------
  // The splitter
  // ---------------------------------------------------------------------------------

  method IndexOf(s: Str, sub: Str) returns (r: int)
    ensures r < 0 ==> forall p :: 0 <= p <= |s| ==> !Starts(sub, s, p)
    ensures r >= 0 ==> r <= |s| && Starts(sub, s, r) && forall p :: 0 <= p < r ==> !Starts(sub, s, p)
  {
    var i := 0;
    while i + |sub| <= |s|
      invariant forall p :: 0 <= p < i && p <= |s| ==> !Starts(sub, s, p)
      decreases |s| - i
    {
      if s[i..i + |sub|] == sub { return i; }
      i := i + 1;
    }
    r := -1;
  }

  ghost predicate ByLength(special: seq<Str>) {
    forall i, j :: 0 <= i < j < |special| ==> |special[i]| >= |special[j]|
  }

  /** The first token that matches is the longest. */
  method LongestHere(text: Str, special: seq<Str>) returns (found: bool, bestTok: Str)
    requires ByLength(special)
    ensures found <==> SomeStarts(special, text, 0)
    ensures found ==> bestTok in special && Starts(bestTok, text, 0)
    ensures found ==> forall t :: t in special && Starts(t, text, 0) ==> |t| <= |bestTok|
  {
    for i := 0 to |special|
      invariant forall j :: 0 <= j < i ==> !Starts(special[j], text, 0)
    {
      var tok := special[i];
      if |text| >= |tok| && text[..|tok|] == tok {
        assert text[..|tok|] == text[0..0 + |tok|];
        assert tok in special && Starts(tok, text, 0);
        return true, tok;
      }
    }
    return false, [];
  }

  /** Where the next special token starts, or the end. */
  method NextSpecial(text: Str, special: seq<Str>) returns (next: nat)
    ensures next <= |text| && (next == |text| || SomeStarts(special, text, next))
    ensures forall p :: 0 <= p < next ==> !SomeStarts(special, text, p)
  {
    next := |text|;
    for i := 0 to |special|
      invariant next <= |text| && (next == |text| || SomeStarts(special, text, next))
      invariant forall p, j :: 0 <= p < next && 0 <= j < i ==> !Starts(special[j], text, p)
    {
      var idx := IndexOf(text, special[i]);
      if idx >= 0 && idx < next {
        next := idx;
      }
    }
  }

  lemma SuffixStarts(tok: Str, text: Str, pos: nat, p: nat)
    requires pos + p <= |text|
    ensures Starts(tok, text[pos..], p) == Starts(tok, text, pos + p)
  {
    if p + |tok| <= |text[pos..]| {
      assert text[pos..][p..p + |tok|] == text[pos + p..pos + p + |tok|];
    }
  }

  lemma SuffixSome(special: seq<Str>, text: Str, pos: nat, p: nat)
    requires pos + p <= |text|
    ensures SomeStarts(special, text[pos..], p) == SomeStarts(special, text, pos + p)
  {
    forall t | t in special ensures Starts(t, text[pos..], p) == Starts(t, text, pos + p) {
      SuffixStarts(t, text, pos, p);
    }
  }

  lemma SuffixSegment(special: seq<Str>, text: Str, pos: nat, g: Segment)
    requires pos <= |text| && SegmentAt(text[pos..], special, 0, g)
    ensures SegmentAt(text, special, pos, g)
  {
    SuffixStarts(g.text, text, pos, 0);
    if g.isSpecial {
      forall t | t in special ensures Starts(t, text[pos..], 0) == Starts(t, text, pos) {
        SuffixStarts(t, text, pos, 0);
      }
    } else {
      forall p | pos <= p < pos + |g.text| ensures !SomeStarts(special, text, p) {
        SuffixSome(special, text, pos, p - pos);
        assert !SomeStarts(special, text[pos..], p - pos);
      }
      SuffixSome(special, text, pos, |g.text|);
    }
  }

  /** Without special tokens the text is one plain segment, even an empty text. */
  method SplitBySpecial(whole: Str, special: seq<Str>) returns (out: seq<Segment>)
    requires ByLength(special) && forall t :: t in special ==> t != []
    ensures whole != [] || special != [] ==> Splits(whole, special, 0, out, |whole|)
    ensures whole == [] && special == [] ==> out == [Segment([], false)]
  {
    hide SegmentAt, SomeStarts;
    if |special| == 0 {
      out := [Segment(whole, false)];
      NoSpecial(special, whole);
      if whole != [] {
        assert SegmentAt(whole, special, 0, out[0]) by {
          PlainSegment(special, whole, |whole|);
          assert whole[..|whole|] == whole;
        }
        assert out[1..] == [];
      }
      return;
    }
    out := [];
    var text := whole;
    ghost var pos: nat := 0;
    while |text| > 0
      invariant pos <= |whole| && text == whole[pos..] && Splits(whole, special, 0, out, pos)
      decreases |text|
    {
      var g: Segment;
      var found, bestTok := LongestHere(text, special);
      if found {
        g := Segment(bestTok, true);
        assert SegmentAt(text, special, 0, g) by { SpecialSegment(special, text, bestTok); }
      } else {
        var next := NextSpecial(text, special);
        assert next > 0; // so the source's last branch, the rest of the text as one segment, is dead
        g := Segment(text[..next], false);
        assert SegmentAt(text, special, 0, g) by { PlainSegment(special, text, next); }
      }
      SuffixSegment(special, whole, pos, g);
      SplitsMore(whole, special, 0, out, pos, g);
      SegmentProgress(text, special, 0, [g]);
      out := out + [g];
      text := text[|g.text|..];
      pos := pos + |g.text|;
    }
  }

  lemma NoSpecial(special: seq<Str>, text: Str)
    requires special == []
    ensures forall p :: 0 <= p <= |text| ==> !SomeStarts(special, text, p)
  {
  }

  lemma SpecialSegment(special: seq<Str>, text: Str, tok: Str)
    requires tok in special && tok != [] && Starts(tok, text, 0)
    requires forall t :: t in special && Starts(t, text, 0) ==> |t| <= |tok|
    ensures SegmentAt(text, special, 0, Segment(tok, true))
  {
  }

  lemma PlainSegment(special: seq<Str>, text: Str, next: nat)
    requires 0 < next <= |text| && (next == |text| || SomeStarts(special, text, next))
    requires (forall p :: 0 <= p < next ==> !SomeStarts(special, text, p))
    ensures SegmentAt(text, special, 0, Segment(text[..next], false))
  {
    assert text[..next] == text[0..0 + next];
  }

  // ---------------------------------------------------------------------------------
  // Collecting the special tokens
  // ---------------------------------------------------------------------------------

  const LESS_THAN: Byte := 0x3C
  const INST: Str := [0x5B, 0x49, 0x4E, 0x53, 0x54, 0x5D]
  const END_INST: Str := [0x5B, 0x2F, 0x49, 0x4E, 0x53, 0x54, 0x5D]

  predicate LooksSpecial(tok: Str) {
    |tok| >= 2 && tok[0] == LESS_THAN
  }

  /** Which tokens count as special. */
  predicate IsSpecial(tokens: seq<Str>, noMerges: bool, tok: Str) {
    tok in tokens && (LooksSpecial(tok) || (noMerges && (tok == INST || tok == END_INST)))
  }

  /** A special token is a less-than sign with something behind it, or one of two marks where there are no merges. */
  lemma SpecialsAre(tokens: seq<Str>, noMerges: bool, tok: Str)
    ensures IsSpecial(tokens, noMerges, tok) <==>
      && tok in tokens
      && ((|tok| > 1 && Ascii("<") <= tok) || (noMerges && tok in {Ascii("[INST]"), Ascii("[/INST]")}))
  {
    assert INST == Ascii("[INST]") && END_INST == Ascii("[/INST]");
  }

  method BuildSpecialTokens(tokens: seq<Str>, noMerges: bool) returns (special: seq<Str>)
    ensures ByLength(special) && forall t :: t in special <==> IsSpecial(tokens, noMerges, t)
  {
    special := [];
    for i := 0 to |tokens|
      invariant forall t :: t in special <==> t in tokens[..i] && LooksSpecial(t)
    {
      if LooksSpecial(tokens[i]) {
        special := special + [tokens[i]];
      }
    }
    assert tokens[..|tokens|] == tokens;
    if noMerges {
      if INST in tokens { special := special + [INST]; }
      if END_INST in tokens { special := special + [END_INST]; }
    }
    special := SortByLength(special);
  }

  /** Longest first; the order among equals is not promised. */
  method SortByLength(a: seq<Str>) returns (s: seq<Str>)
    ensures ByLength(s) && forall t :: t in s <==> t in a
  {
    s := [];
    for i := 0 to |a|
      invariant ByLength(s) && forall t :: t in s <==> t in a[..i]
    {
      var k := 0;
      while k < |s| && |s[k]| >= |a[i]|
        invariant 0 <= k <= |s| && forall j :: 0 <= j < k ==> |s[j]| >= |a[i]|
      {
        k := k + 1;
      }
      Inserted(s, k, a[i]);
      assert a[..i + 1] == a[..i] + [a[i]];
      s := s[..k] + [a[i]] + s[k..];
    }
    assert a[..|a|] == a;
  }

  lemma Inserted<T>(s: seq<T>, k: nat, x: T)
    requires k <= |s|
    ensures forall t :: t in s[..k] + [x] + s[k..] <==> t in s || t == x
  {
    assert s == s[..k] + s[k..];
  }
}
