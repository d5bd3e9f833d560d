/** Byte-pair merging: the adjacent pair of lowest rank, leftmost first, until no pair can be merged. */
module MergeLoop {
  import opened Utf8
  import opened ByteAlphabet

  type Merges = map<(Str, Str), nat>

  function Concat(ss: seq<Str>): Str {
    if ss == [] then [] else ss[0] + Concat(ss[1..])
  }

  lemma {:induction false} ConcatAppend(a: seq<Str>, b: seq<Str>)
    ensures Concat(a + b) == Concat(a) + Concat(b)
  {
    if a == [] {
      assert a + b == b;
    } else {
      ConcatAppend(a[1..], b);
      TailOfSum(a, b);
      Regroup(a[0], Concat(a[1..]), Concat(b));
    }
  }

  lemma ConcatOne(s: Str)
    ensures Concat([s]) == s
  {
    assert [s][1..] == [];
    assert s + [] == s;
  }

  function Symbols(s: Str): seq<Str>
    decreases |s|
  {
    if s == [] then [] else [s[..Size(s)]] + Symbols(s[Size(s)..])
  }

  method Utf8Symbols(s: Str) returns (out: seq<Str>)
    ensures out == Symbols(s)
  {
    hide Size;
    out := [];
    var i := 0;
    while i < |s|
      invariant 0 <= i <= |s| && out + Symbols(s[i..]) == Symbols(s)
    {
      var size := Size(s[i..]);
      assert s[i..][size..] == s[i + size..] && s[i..][..size] == s[i..i + size];
      out := out + [s[i..i + size]];
      i := i + size;
    }
  }

  lemma {:induction false} SymbolsJoin(s: Str)
    ensures Concat(Symbols(s)) == s
    decreases |s|
  {
    hide Size;
    if s != [] {
      SymbolsJoin(s[Size(s)..]);
      assert Symbols(s)[1..] == Symbols(s[Size(s)..]);
      assert s == s[..Size(s)] + s[Size(s)..];
    }
  }

  // ---------------------------------------------------------------------------------
  // One merge
  // ---------------------------------------------------------------------------------

  function PairAt(ss: seq<Str>, i: nat): (Str, Str)
    requires i + 1 < |ss|
  {
    (ss[i], ss[i + 1])
  }

  /** The pair to merge: in the table, of lowest rank, and the leftmost such. */
  ghost predicate IsBest(merges: Merges, ss: seq<Str>, upTo: nat, i: int)
    requires upTo < |ss| || upTo == 0
  {
    && 0 <= i < upTo && PairAt(ss, i) in merges
    && forall j :: 0 <= j < upTo && PairAt(ss, j) in merges ==>
      merges[PairAt(ss, i)] < merges[PairAt(ss, j)] || (merges[PairAt(ss, i)] == merges[PairAt(ss, j)] && i <= j)
  }

  ghost predicate Stuck(merges: Merges, ss: seq<Str>, upTo: nat)
    requires upTo < |ss| || upTo == 0
  {
    forall j :: 0 <= j < upTo ==> PairAt(ss, j) !in merges
  }

  lemma BestUnique(merges: Merges, ss: seq<Str>, upTo: nat, i: int, j: int)
    requires upTo < |ss| && IsBest(merges, ss, upTo, i) && IsBest(merges, ss, upTo, j)
    ensures i == j
  {
  }

  function MergeAt(ss: seq<Str>, i: nat): (next: seq<Str>)
    requires i + 1 < |ss|
    ensures |next| == |ss| - 1
  {
    ss[..i] + [ss[i] + ss[i + 1]] + ss[i + 2..]
  }

  /** What the loop computes, as a relation: best merges until stuck. */
  ghost predicate MergesTo(merges: Merges, ss: seq<Str>, final: seq<Str>)
    decreases |ss|
  {
    if |ss| < 2 || Stuck(merges, ss, |ss| - 1) then final == ss
    else exists i :: IsBest(merges, ss, |ss| - 1, i) && MergesTo(merges, MergeAt(ss, i), final)
  }

  method Bpe(merges: Merges, text: Str) returns (symbols: seq<Str>)
    ensures MergesTo(merges, Symbols(text), symbols)
  {
    hide MergesTo, Symbols;
    if text == [] {
      assert MergesTo(merges, Symbols([]), []) by { NothingToMerge(merges); }
      return [];
    }
    symbols := Utf8Symbols(text);
    ghost var first := symbols;
    if |symbols| == 1 {
      assert MergesTo(merges, symbols, symbols) by { AtMostOne(merges, symbols); }
      return;
    }
    ghost var path := [symbols];
    while true
      invariant |path| > 0 && path[0] == first && path[|path| - 1] == symbols && IsPath(merges, path)
      decreases |symbols|
    {
      var best := FindBest(merges, symbols);
      if best < 0 { break; }
      ghost var was := symbols;
      symbols := symbols[..best] + [symbols[best] + symbols[best + 1]] + symbols[best + 2..];
      PathGrows(merges, path, best);
      path := path + [symbols];
    }
    PathLeads(merges, path);
  }

  /** The inner scan. */
  method FindBest(merges: Merges, symbols: seq<Str>) returns (bestIdx: int)
    ensures bestIdx < 0 ==> |symbols| < 2 || Stuck(merges, symbols, |symbols| - 1)
    ensures bestIdx >= 0 ==> |symbols| >= 2 && IsBest(merges, symbols, |symbols| - 1, bestIdx)
  {
    bestIdx := -1;
    var bestRank := 0;
    var i := 0;
    while i < |symbols| - 1
      invariant 0 <= i && (|symbols| > 0 ==> i <= |symbols| - 1) && (|symbols| == 0 ==> i == 0)
      invariant bestIdx < 0 ==> Stuck(merges, symbols, i)
      invariant bestIdx >= 0 ==> IsBest(merges, symbols, i, bestIdx) && bestRank == merges[PairAt(symbols, bestIdx)]
    {
      var pair := PairAt(symbols, i);
      if pair in merges && (bestIdx < 0 || merges[pair] < bestRank) {
        bestRank := merges[pair];
        bestIdx := i;
      }
      i := i + 1;
    }
  }

  /** Consecutive states of the loop. */
  ghost predicate IsPath(merges: Merges, path: seq<seq<Str>>) {
    forall k :: 0 <= k < |path| - 1 ==> Steps(merges, path[k], path[k + 1])
  }

  ghost predicate Steps(merges: Merges, ss: seq<Str>, next: seq<Str>) {
    |ss| >= 2 && exists i :: IsBest(merges, ss, |ss| - 1, i) && next == MergeAt(ss, i)
  }

  lemma PathGrows(merges: Merges, path: seq<seq<Str>>, best: nat)
    requires path != [] && IsPath(merges, path) && |path[|path| - 1]| >= 2
    requires IsBest(merges, path[|path| - 1], |path[|path| - 1]| - 1, best)
    ensures IsPath(merges, path + [MergeAt(path[|path| - 1], best)])
  {
  }

  lemma {:induction false} PathLeads(merges: Merges, path: seq<seq<Str>>)
    requires path != [] && IsPath(merges, path)
    requires |path[|path| - 1]| < 2 || Stuck(merges, path[|path| - 1], |path[|path| - 1]| - 1)
    ensures MergesTo(merges, path[0], path[|path| - 1])
  {
    if |path| > 1 {
      assert Steps(merges, path[0], path[1]);
      PathLeads(merges, path[1..]);
    }
  }

  lemma NothingToMerge(merges: Merges)
    ensures Symbols([]) == [] && MergesTo(merges, [], [])
  {
  }

  lemma AtMostOne(merges: Merges, ss: seq<Str>)
    requires |ss| < 2
    ensures MergesTo(merges, ss, ss)
  {
  }

  // ---------------------------------------------------------------------------------
  // What merging keeps
  // ---------------------------------------------------------------------------------

  /** The bytes, and no mergeable pair is left. */
  lemma {:induction false} MergedJoin(merges: Merges, ss: seq<Str>, final: seq<Str>)
    requires MergesTo(merges, ss, final)
    ensures Concat(final) == Concat(ss)
    ensures |final| < 2 || Stuck(merges, final, |final| - 1)
    decreases |ss|
  {
    hide Concat, Stuck;
    if |ss| >= 2 && !Stuck(merges, ss, |ss| - 1) {
      var i :| IsBest(merges, ss, |ss| - 1, i) && MergesTo(merges, MergeAt(ss, i), final);
      BestInRange(merges, ss, i);
      MergedJoin(merges, MergeAt(ss, i), final);
      MergeJoins(ss, i);
    }
  }

  lemma BestInRange(merges: Merges, ss: seq<Str>, i: int)
    requires |ss| >= 2 && IsBest(merges, ss, |ss| - 1, i)
    ensures 0 <= i && i + 1 < |ss| && PairAt(ss, i) in merges
  {
  }

  lemma MergeJoins(ss: seq<Str>, i: nat)
    requires i + 1 < |ss|
    ensures Concat(MergeAt(ss, i)) == Concat(ss)
  {
    hide Concat;
    CutPair(ss, i);
    ConcatThree(ss[..i], [ss[i], ss[i + 1]], ss[i + 2..]);
    ConcatThree(ss[..i], [ss[i] + ss[i + 1]], ss[i + 2..]);
    ConcatPair(ss[i], ss[i + 1]);
    ConcatOne(ss[i] + ss[i + 1]);
  }

  lemma CutPair<T>(ss: seq<T>, i: nat)
    requires i + 1 < |ss|
    ensures ss == ss[..i] + [ss[i], ss[i + 1]] + ss[i + 2..]
  {
  }

  lemma ConcatThree(a: seq<Str>, b: seq<Str>, c: seq<Str>)
    ensures Concat(a + b + c) == Concat(a) + Concat(b) + Concat(c)
  {
    hide Concat;
    ConcatAppend(a + b, c);
    ConcatAppend(a, b);
  }

  lemma ConcatPair(x: Str, y: Str)
    ensures Concat([x, y]) == x + y
  {
    assert [x, y][1..] == [y];
    ConcatOne(y);
  }

  /** Whatever holds of the first symbols and passes to merge results holds of the last symbols. */
  lemma {:induction false} MergedKeep(merges: Merges, ss: seq<Str>, final: seq<Str>, p: Str -> bool)
    requires MergesTo(merges, ss, final)
    requires forall s :: s in ss ==> p(s)
    requires forall a, b :: p(a) && p(b) && (a, b) in merges ==> p(a + b)
    ensures forall s :: s in final ==> p(s)
    decreases |ss|
  {
    hide Stuck;
    if |ss| >= 2 && !Stuck(merges, ss, |ss| - 1) {
      var i :| IsBest(merges, ss, |ss| - 1, i) && MergesTo(merges, MergeAt(ss, i), final);
      BestInRange(merges, ss, i);
      assert p(ss[i]) && p(ss[i + 1]) && p(ss[i] + ss[i + 1]);
      MergedKeep(merges, MergeAt(ss, i), final, p);
    }
  }

  /** The result does not depend on how the best pair is found. */
  lemma {:induction false} MergesOneWay(merges: Merges, ss: seq<Str>, f: seq<Str>, g: seq<Str>)
    requires MergesTo(merges, ss, f) && MergesTo(merges, ss, g)
    ensures f == g
    decreases |ss|
  {
    hide Stuck;
    if |ss| >= 2 && !Stuck(merges, ss, |ss| - 1) {
      var i :| IsBest(merges, ss, |ss| - 1, i) && MergesTo(merges, MergeAt(ss, i), f);
      var j :| IsBest(merges, ss, |ss| - 1, j) && MergesTo(merges, MergeAt(ss, j), g);
      BestUnique(merges, ss, |ss| - 1, i, j);
      MergesOneWay(merges, MergeAt(ss, i), f, g);
    }
  }

  // ---------------------------------------------------------------------------------
  // Merging spelled words
  // ---------------------------------------------------------------------------------

  /** A run of whole letters. */
  ghost predicate Whole(s: Str) {
    s == Spelled(Bytes(s))
  }

  lemma WholeSpelled(w: Str)
    ensures Whole(Spelled(w))
  {
    SpelledRoundTrip(w);
  }

  lemma WholeJoin(a: Str, b: Str)
    requires Whole(a) && Whole(b)
    ensures Whole(a + b) && Bytes(a + b) == Bytes(a) + Bytes(b)
  {
    hide Bytes, Spelled;
    SpelledAppend(Bytes(a), Bytes(b));
    SpelledRoundTrip(Bytes(a) + Bytes(b));
  }

  /** The symbols of a spelled word are its letters. */
  lemma {:induction false} SymbolsOfSpelled(w: Str)
    ensures |Symbols(Spelled(w))| == |w|
    ensures forall i :: 0 <= i < |w| ==> Symbols(Spelled(w))[i] == Spell(w[i])
  {
    if w != [] {
      FirstSymbol(w);
      SymbolsOfSpelled(w[1..]);
    }
  }

  lemma FirstSymbol(w: Str)
    requires w != []
    ensures Symbols(Spelled(w)) == [Spell(w[0])] + Symbols(Spelled(w[1..]))
  {
    hide Letter, Encode, Rune, Size;
    LetterIsRune(w[0]);
    DecodeEncode(Letter(w[0]), Spelled(w[1..]));
    var s := Spelled(w);
    assert s[..Size(s)] == Spell(w[0]) && s[Size(s)..] == Spelled(w[1..]);
  }

  /** Whole symbols decode one by one to what they decode to together. */
  lemma {:induction false} BytesOfWholes(ss: seq<Str>)
    requires forall s :: s in ss ==> Whole(s)
    ensures Whole(Concat(ss))
    ensures Bytes(Concat(ss)) == Concat(seq(|ss|, i requires 0 <= i < |ss| => Bytes(ss[i])))
  {
    hide Bytes, Whole;
    var parts := seq(|ss|, i requires 0 <= i < |ss| => Bytes(ss[i]));
    if ss == [] {
      WholeSpelled([]);
      SpelledNothing();
      SpelledRoundTrip([]);
    } else {
      BytesOfWholes(ss[1..]);
      WholeJoin(ss[0], Concat(ss[1..]));
      assert parts[1..] == seq(|ss[1..]|, i requires 0 <= i < |ss[1..]| => Bytes(ss[1..][i]));
    }
  }

  /** Merging the letters of a word keeps whole letters and decodes to the word. */
  lemma MergedWord(merges: Merges, w: Str, final: seq<Str>)
    requires MergesTo(merges, Symbols(Spelled(w)), final)
    ensures Concat(seq(|final|, i requires 0 <= i < |final| => Bytes(final[i]))) == w
  {
    hide Bytes, Symbols, MergesTo, Spelled, Concat;
    var first := Symbols(Spelled(w));
    forall s | s in first ensures Whole(s) {
      SymbolsOfSpelled(w);
      var i :| 0 <= i < |first| && first[i] == s;
      SpelledOne(w[i]);
      WholeSpelled([w[i]]);
    }
    forall a, b | Whole(a) && Whole(b) && (a, b) in merges ensures Whole(a + b) {
      WholeJoin(a, b);
    }
    MergedKeep(merges, first, final, s => Whole(s));
    MergedJoin(merges, first, final);
    SymbolsJoin(Spelled(w));
    BytesOfWholes(final);
    SpelledRoundTrip(w);
  }

  /** A vocabulary closed under merging: all letters and all merge results. */
  ghost predicate Complete(merges: Merges, vocab: set<Str>) {
    && (forall b: Byte :: Spell(b) in vocab)
    && (forall pair :: pair in merges ==> pair.0 + pair.1 in vocab)
  }

  lemma MergedInVocab(merges: Merges, vocab: set<Str>, w: Str, final: seq<Str>)
    requires Complete(merges, vocab) && MergesTo(merges, Symbols(Spelled(w)), final)
    ensures forall s :: s in final ==> s in vocab
  {
    hide Symbols, MergesTo, Spell, Spelled;
    var first := Symbols(Spelled(w));
    forall s | s in first ensures s in vocab {
      SymbolsOfSpelled(w);
      var i :| 0 <= i < |first| && first[i] == s;
    }
    MergedKeep(merges, first, final, s => s in vocab);
  }
}
