/** Byte-level BPE end to end: special tokens, pretokenizer, byte alphabet, merges, vocabulary, and back. */
module Tokenizer {
  import opened Wrappers
  import opened Utf8
  import opened ByteAlphabet
  import opened MergeLoop
  import opened SpecialTokens
  import opened Pretokenizer

  /** The vocabulary index points at the last occurrence of every token. */
  ghost predicate Indexed(tokens: seq<Str>, id: map<Str, nat>) {
    && (forall t :: t in tokens <==> t in id)
    && (forall t :: t in id ==> id[t] < |tokens| && tokens[id[t]] == t)
    && (forall t, j :: t in id && id[t] < j < |tokens| ==> tokens[j] != t)
  }

  method IndexTokens(tokens: seq<Str>) returns (id: map<Str, nat>)
    ensures Indexed(tokens, id)
  {
    id := map[];
    for i := 0 to |tokens|
      invariant Indexed(tokens[..i], id)
    {
      assert tokens[..i + 1] == tokens[..i] + [tokens[i]];
      id := id[tokens[i] := i];
    }
    assert tokens[..|tokens|] == tokens;
  }

  /** A merge line is cut at its first blank. */
  predicate CutsAt(m: Str, k: nat) {
    k < |m| && m[k] == 0x20 && forall j :: 0 <= j < k ==> m[j] != 0x20
  }

  ghost predicate NoBlank(m: Str) {
    forall k: nat :: !CutsAt(m, k)
  }

  ghost predicate Line(m: Str, pair: (Str, Str)) {
    exists k: nat :: CutsAt(m, k) && pair == (m[..k], m[k + 1..])
  }

  ghost predicate HasRank(m: Str, merges: Merges, atLeast: nat) {
    exists pair :: Line(m, pair) && pair in merges && merges[pair] >= atLeast
  }

  /** Every pair has the rank of the last line that names it. */
  ghost predicate Ranked(raw: seq<Str>, merges: Merges) {
    && (forall i :: 0 <= i < |raw| ==> HasRank(raw[i], merges, i))
    && (forall pair :: pair in merges ==> merges[pair] < |raw| && Line(raw[merges[pair]], pair))
  }

  method CutLine(m: Str) returns (r: Option<(Str, Str)>)
    ensures r.Some? ==> Line(m, r.value)
    ensures r.None? ==> NoBlank(m)
  {
    for i := 0 to |m|
      invariant forall j :: 0 <= j < i ==> m[j] != 0x20
    {
      if m[i] == 0x20 {
        assert CutsAt(m, i);
        return Some((m[..i], m[i + 1..]));
      }
    }
    r := None;
  }

  method RankMerges(raw: seq<Str>) returns (r: Option<Merges>)
    ensures r.Some? ==> Ranked(raw, r.value)
    ensures r.None? ==> exists m :: m in raw && NoBlank(m)
  {
    var merges: Merges := map[];
    for i := 0 to |raw|
      invariant Ranked(raw[..i], merges)
    {
      var cut := CutLine(raw[i]);
      if cut.None? { return None; }
      RankOne(raw[..i], merges, raw[i], cut.value);
      assert raw[..i + 1] == raw[..i] + [raw[i]];
      merges := merges[cut.value := i];
    }
    assert raw[..|raw|] == raw;
    r := Some(merges);
  }

  lemma RankOne(raw: seq<Str>, merges: Merges, m: Str, pair: (Str, Str))
    requires Ranked(raw, merges) && Line(m, pair)
    ensures Ranked(raw + [m], merges[pair := |raw|])
  {
    hide Line, HasRank;
    forall i | 0 <= i < |raw| ensures HasRank(raw[i], merges[pair := |raw|], i) {
      StillRanked(raw[i], merges, i, pair, |raw|);
    }
    NewlyRanked(m, merges[pair := |raw|], |raw|, pair);
  }

  lemma StillRanked(m: Str, merges: Merges, i: nat, pair: (Str, Str), rank: nat)
    requires HasRank(m, merges, i) && i <= rank
    ensures HasRank(m, merges[pair := rank], i)
  {
    hide Line;
    var p :| Line(m, p) && p in merges && merges[p] >= i;
    assert Line(m, p) && merges[pair := rank][p] >= i;
  }

  lemma NewlyRanked(m: Str, merges: Merges, i: nat, pair: (Str, Str))
    requires Line(m, pair) && pair in merges && merges[pair] >= i
    ensures HasRank(m, merges, i)
  {
  }

  // ---------------------------------------------------------------------------------
  // Which ids a text has
  // ---------------------------------------------------------------------------------

  /** The list is cut into parts, one for each item and in order. */
  ghost predicate Chained<T(!new)>(part: (T, seq<int>) -> bool, items: seq<T>, ids: seq<int>)
    decreases |items|
  {
    if items == [] then ids == []
    else
      var last := |items| - 1;
      exists k :: 0 <= k <= |ids| && Chained(part, items[..last], ids[..k]) && part(items[last], ids[k..])
  }

  lemma ChainedMore<T(!new)>(part: (T, seq<int>) -> bool, items: seq<T>, item: T, ids: seq<int>, more: seq<int>)
    requires Chained(part, items, ids) && part(item, more)
    ensures Chained(part, items + [item], ids + more)
  {
    var all, longer := ids + more, items + [item];
    assert longer[..|longer| - 1] == items && all[..|ids|] == ids && all[|ids|..] == more;
  }

  lemma ChainedLast<T(!new)>(part: (T, seq<int>) -> bool, items: seq<T>, ids: seq<int>) returns (k: nat)
    requires items != [] && Chained(part, items, ids)
    ensures k <= |ids| && Chained(part, items[..|items| - 1], ids[..k]) && part(items[|items| - 1], ids[k..])
  {
    k :| 0 <= k <= |ids| && Chained(part, items[..|items| - 1], ids[..k]) && part(items[|items| - 1], ids[k..]);
  }

  lemma ChainedNone<T(!new)>(part: (T, seq<int>) -> bool, ids: seq<int>)
    requires Chained(part, [], ids)
    ensures ids == []
  {
  }

  /** One part for each item, one list for all. */
  lemma {:induction false} ChainedOneWay<T(!new)>(part: (T, seq<int>) -> bool, items: seq<T>, a: seq<int>, b: seq<int>)
    requires forall item, x, y :: item in items && part(item, x) && part(item, y) ==> x == y
    requires Chained(part, items, a) && Chained(part, items, b)
    ensures a == b
    decreases |items|
  {
    hide Chained;
    if items == [] {
      ChainedNone(part, a);
      ChainedNone(part, b);
    } else {
      var last := |items| - 1;
      var j := ChainedLast(part, items, a);
      var k := ChainedLast(part, items, b);
      ChainedOneWay(part, items[..last], a[..j], b[..k]);
      assert a == a[..j] + a[j..] && b == b[..k] + b[k..];
    }
  }

  /** No part for one item, no list for all. */
  lemma {:induction false} NotChained<T(!new)>(part: (T, seq<int>) -> bool, items: seq<T>, n: nat, ids: seq<int>)
    requires n < |items| && forall x :: !part(items[n], x)
    ensures !Chained(part, items, ids)
    decreases |items|
  {
    var last := |items| - 1;
    if n < last {
      forall k | 0 <= k <= |ids| ensures !Chained(part, items[..last], ids[..k]) {
        NotChained(part, items[..last], n, ids[..k]);
      }
    }
  }

  /** Every symbol by its place in the vocabulary index. */
  ghost predicate Identified(id: map<Str, nat>, symbols: seq<Str>, ids: seq<int>) {
    |ids| == |symbols| && forall i :: 0 <= i < |ids| ==> symbols[i] in id && ids[i] == id[symbols[i]]
  }

  /** The ids of a piece: of what is left when its letters are merged as far as the ranks go. */
  ghost predicate PieceIds(merges: Merges, id: map<Str, nat>, piece: Str, ids: seq<int>) {
    exists symbols :: MergesTo(merges, Symbols(Spelled(piece)), symbols) && Identified(id, symbols, ids)
  }

  ghost function OfPiece(merges: Merges, id: map<Str, nat>): (seq<int>, seq<int>) -> bool {
    (runes, ids) => PieceIds(merges, id, Write(runes), ids)
  }

  /** The ids of a segment: a special token has its own, and plain text those of the pieces it is cut into, in order. */
  ghost predicate SegmentIds(merges: Merges, id: map<Str, nat>, cl: Classes, g: Segment, ids: seq<int>) {
    if g.isSpecial then g.text in id && ids == [id[g.text]]
    else Chained(OfPiece(merges, id), CutPieces(cl, Runes(g.text), 0), ids)
  }

  ghost function OfSegment(merges: Merges, id: map<Str, nat>, cl: Classes): (Segment, seq<int>) -> bool {
    (g, ids) => SegmentIds(merges, id, cl, g, ids)
  }

  /** The ids of a text: those of its segments, in order. */
  ghost predicate TextIds(merges: Merges, id: map<Str, nat>, cl: Classes, special: seq<Str>, text: Str, ids: seq<int>) {
    exists segs :: Splits(text, special, 0, segs, |text|) && Chained(OfSegment(merges, id, cl), segs, ids)
  }

  lemma PieceOneWay(merges: Merges, id: map<Str, nat>, piece: Str, a: seq<int>, b: seq<int>)
    requires PieceIds(merges, id, piece, a) && PieceIds(merges, id, piece, b)
    ensures a == b
  {
    hide MergesTo, Symbols, Spelled;
    var f :| MergesTo(merges, Symbols(Spelled(piece)), f) && Identified(id, f, a);
    var g :| MergesTo(merges, Symbols(Spelled(piece)), g) && Identified(id, g, b);
    MergesOneWay(merges, Symbols(Spelled(piece)), f, g);
  }

  lemma SegmentOneWay(merges: Merges, id: map<Str, nat>, cl: Classes, g: Segment, a: seq<int>, b: seq<int>)
    requires SegmentIds(merges, id, cl, g, a) && SegmentIds(merges, id, cl, g, b)
    ensures a == b
  {
    hide PieceIds, CutPieces, Chained, Runes, Write;
    if !g.isSpecial {
      forall item, x, y | OfPiece(merges, id)(item, x) && OfPiece(merges, id)(item, y) ensures x == y {
        PieceOneWay(merges, id, Write(item), x, y);
      }
      ChainedOneWay(OfPiece(merges, id), CutPieces(cl, Runes(g.text), 0), a, b);
    }
  }

  /** A text has at most one list of ids. */
  lemma TextOneWay(merges: Merges, id: map<Str, nat>, cl: Classes, special: seq<Str>, text: Str, a: seq<int>, b: seq<int>)
    requires TextIds(merges, id, cl, special, text, a) && TextIds(merges, id, cl, special, text, b)
    ensures a == b
  {
    hide SegmentIds, Splits, Chained;
    var f :| Splits(text, special, 0, f, |text|) && Chained(OfSegment(merges, id, cl), f, a);
    var g :| Splits(text, special, 0, g, |text|) && Chained(OfSegment(merges, id, cl), g, b);
    SplitOneWay(text, special, 0, f, g);
    forall item, x, y | OfSegment(merges, id, cl)(item, x) && OfSegment(merges, id, cl)(item, y) ensures x == y {
      SegmentOneWay(merges, id, cl, item, x, y);
    }
    ChainedOneWay(OfSegment(merges, id, cl), f, a, b);
  }

  // ---------------------------------------------------------------------------------
  // What ids decode to
  // ---------------------------------------------------------------------------------

  ghost function DecodedOne(tokens: seq<Str>, id: int): Str {
    if 0 <= id < |tokens| then Bytes(tokens[id]) else []
  }

  /** Unknown ids are skipped. */
  ghost function Decoded(tokens: seq<Str>, ids: seq<int>): Str {
    if ids == [] then [] else DecodedOne(tokens, ids[0]) + Decoded(tokens, ids[1..])
  }

  lemma {:induction false} DecodedAppend(tokens: seq<Str>, a: seq<int>, b: seq<int>)
    ensures Decoded(tokens, a + b) == Decoded(tokens, a) + Decoded(tokens, b)
  {
    hide DecodedOne;
    if a == [] {
      assert a + b == b;
    } else {
      DecodedAppend(tokens, a[1..], b);
      TailOfSum(a, b);
      Regroup(DecodedOne(tokens, a[0]), Decoded(tokens, a[1..]), Decoded(tokens, b));
    }
  }

  lemma DecodedSingle(tokens: seq<Str>, id: int)
    ensures Decoded(tokens, [id]) == DecodedOne(tokens, id)
  {
    assert [id][1..] == [];
    assert DecodedOne(tokens, id) + [] == DecodedOne(tokens, id);
  }

  /** ids name the symbols. */
  ghost predicate Names(tokens: seq<Str>, symbols: seq<Str>, ids: seq<int>) {
    |ids| == |symbols| && forall i :: 0 <= i < |ids| ==> 0 <= ids[i] < |tokens| && tokens[ids[i]] == symbols[i]
  }

  lemma {:induction false} DecodedSymbols(tokens: seq<Str>, symbols: seq<Str>, ids: seq<int>)
    requires Names(tokens, symbols, ids)
    ensures Decoded(tokens, ids) == Concat(seq(|symbols|, i requires 0 <= i < |symbols| => Bytes(symbols[i])))
  {
    hide Bytes;
    var parts := seq(|symbols|, i requires 0 <= i < |symbols| => Bytes(symbols[i]));
    if ids != [] {
      DecodedSymbols(tokens, symbols[1..], ids[1..]);
      assert parts[1..] == seq(|symbols[1..]|, i requires 0 <= i < |symbols[1..]| => Bytes(symbols[1..][i]));
    }
  }

  lemma {:induction false} WriteJoin(ps: seq<seq<int>>, p: seq<int>)
    ensures Write(Join(ps + [p])) == Write(Join(ps)) + Write(p)
  {
    hide Write, Join;
    JoinMore(ps, p);
    WriteAppend(Join(ps), p);
  }

  // ---------------------------------------------------------------------------------
  // What the segments of a text decode to
  // ---------------------------------------------------------------------------------

  /** Special tokens as their own decoding, plain text after conversion to runes. */
  ghost function Restored(segs: seq<Segment>): Str {
    if segs == [] then []
    else
      var g := segs[|segs| - 1];
      Restored(segs[..|segs| - 1]) + if g.isSpecial then Bytes(g.text) else Sanitize(g.text)
  }

  /** The special tokens that occur are made of 0x21..0x7E. */
  predicate AsciiSpecials(segs: seq<Segment>) {
    forall g :: g in segs && g.isSpecial ==> PlainAscii(g.text)
  }

  /** With such special tokens the segments restore to the whole text converted to runes and back: no rune straddles
      a segment border. */
  lemma {:induction false} RestoredIsSanitized(text: Str, special: seq<Str>, segs: seq<Segment>, k: nat)
    requires Splits(text, special, 0, segs, |text|) && AsciiSpecials(segs) && k <= |segs|
    ensures Width(segs[..k]) <= |text| && Restored(segs[..k]) == Sanitize(text[..Width(segs[..k])])
  {
    hide Sanitize, Bytes, SegmentAt, Splits;
    WidthPrefix(text, special, segs, k);
    if k == 0 {
      assert segs[..0] == [] && text[..0] == [];
      NothingSanitized();
    } else {
      var g, from := segs[k - 1], Width(segs[..k - 1]);
      RestoredIsSanitized(text, special, segs, k - 1);
      assert segs[..k][..k - 1] == segs[..k - 1];
      SegmentsInPlace(text, special, segs, |text|, k - 1);
      SegmentText(text, special, from, g);
      assert text[..from + |g.text|] == text[..from] + g.text;
      if k > 1 {
        SegmentsInPlace(text, special, segs, |text|, k - 2);
        assert segs[..k - 1][..k - 2] == segs[..k - 2];
        BorderIsCut(text, special, Width(segs[..k - 2]), segs[k - 2], g);
      }
      SanitizeAppend(text[..from], g.text);
      if g.isSpecial {
        DecodesToItself(g.text);
        SanitizeAscii(g.text);
      }
    }
  }

  lemma NothingJoinedWritten()
    ensures Write(Join([])) == []
  {
  }

  lemma NothingSanitized()
    ensures Sanitize([]) == []
  {
  }

  lemma SegmentText(text: Str, special: seq<Str>, from: nat, g: Segment)
    requires from <= |text| && SegmentAt(text, special, from, g)
    ensures from + |g.text| <= |text| && g.text == text[from..from + |g.text|] && g.text != []
  {
  }

  /** One of two neighbours is a special token. */
  lemma BorderIsCut(text: Str, special: seq<Str>, from: nat, g: Segment, h: Segment)
    requires from + |g.text| <= |text| && (g.isSpecial ==> PlainAscii(g.text)) && (h.isSpecial ==> PlainAscii(h.text))
    requires SegmentAt(text, special, from, g) && SegmentAt(text, special, from + |g.text|, h)
    ensures Cut(text[..from + |g.text|], h.text)
  {
    if g.isSpecial {
      assert text[..from + |g.text|][from + |g.text| - 1] == g.text[|g.text| - 1];
    } else {
      SegmentKind(text, special, from + |g.text|, h);
    }
  }

  ghost predicate ValidSpecials(special: seq<Str>) {
    forall t :: t in special ==> t != [] && Utf8.Valid(t)
  }

  /** Valid special tokens cut a valid text into valid pieces. */
  lemma {:induction false} PlainPiecesValid(text: Str, special: seq<Str>, from: nat, segs: seq<Segment>)
    requires from <= |text| && Splits(text, special, from, segs, |text|) && Utf8.Valid(text[from..]) && ValidSpecials(special)
    ensures forall g :: g in segs && !g.isSpecial ==> Utf8.Valid(g.text)
    decreases |segs|
  {
    hide Utf8.Valid, SegmentAt;
    if segs != [] {
      var g := segs[0];
      SegmentProgress(text, special, from, segs);
      SegmentText(text, special, from, g);
      var rest := text[from + |g.text|..];
      assert text[from..] == g.text + rest;
      if g.isSpecial {
        SpecialIsListed(text, special, from, g);
        ValidRest(g.text, rest);
      } else {
        PlainIsCut(text, special, from, g);
        ValidParts(g.text, rest);
      }
      PlainPiecesValid(text, special, from + |g.text|, segs[1..]);
    }
  }

  lemma SpecialIsListed(text: Str, special: seq<Str>, from: nat, g: Segment)
    requires from <= |text| && SegmentAt(text, special, from, g) && g.isSpecial
    ensures g.text in special
  {
  }

  /** Behind plain text the text ends or a special token begins. */
  lemma PlainIsCut(text: Str, special: seq<Str>, from: nat, g: Segment)
    requires from + |g.text| <= |text| && SegmentAt(text, special, from, g) && !g.isSpecial && ValidSpecials(special)
    ensures Cut(g.text, text[from + |g.text|..])
  {
    hide Utf8.Valid, Cont;
    var at := from + |g.text|;
    if at < |text| {
      var t :| t in special && SpecialTokens.Starts(t, text, at);
      ValidStarts(t);
      assert text[at..][0] == text[at..at + |t|][0] == t[0];
    }
  }

  /** Where plain segments are valid, only special tokens change their length, and they shrink exactly if not plain ASCII. */
  lemma {:induction false} RestoredLength(segs: seq<Segment>)
    requires forall g :: g in segs && !g.isSpecial ==> Utf8.Valid(g.text)
    ensures |Restored(segs)| <= Width(segs) && (|Restored(segs)| == Width(segs) <==> AsciiSpecials(segs))
  {
    hide Sanitize, Bytes, Utf8.Valid, PlainAscii;
    if segs != [] {
      var g, before := segs[|segs| - 1], segs[..|segs| - 1];
      RestoredLength(before);
      assert segs == before + [g];
      if g.isSpecial { DecodesToItself(g.text); } else { SanitizeKeepsValid(g.text); }
    }
  }

  /** For valid text and valid special tokens, the segments restore to the text exactly if those that occur are plain ASCII. */
  lemma RestoredExactly(text: Str, special: seq<Str>, segs: seq<Segment>)
    requires Splits(text, special, 0, segs, |text|) && Utf8.Valid(text) && ValidSpecials(special)
    ensures Restored(segs) == text <==> AsciiSpecials(segs)
    ensures |Restored(segs)| <= |text|
  {
    hide Sanitize, Bytes, SegmentAt, Splits, Utf8.Valid, PlainAscii;
    assert text[0..] == text;
    PlainPiecesValid(text, special, 0, segs);
    RestoredLength(segs);
    WidthTotal(text, special, 0, segs, |text|);
    if AsciiSpecials(segs) {
      RestoredIsSanitized(text, special, segs, |segs|);
      assert segs[..|segs|] == segs && text[..|text|] == text;
      SanitizeKeepsValid(text);
    }
  }

  lemma WidthPrefix(text: Str, special: seq<Str>, segs: seq<Segment>, k: nat)
    requires Splits(text, special, 0, segs, |text|) && k <= |segs|
    ensures Width(segs[..k]) <= |text|
  {
    hide SegmentAt, Splits;
    if k < |segs| {
      SegmentsInPlace(text, special, segs, |text|, k);
    } else {
      WidthTotal(text, special, 0, segs, |text|);
      assert segs[..k] == segs;
    }
  }

  // ---------------------------------------------------------------------------------
  // The tokenizer object
  // ---------------------------------------------------------------------------------

  class Tokenizer {
    const tokens: seq<Str>
    const id: map<Str, nat>
    const merges: Merges
    const classes: Classes
    const byteToUnicode: map<Byte, Str>
    const unicodeToByte: map<Str, Byte>
    var special: Option<seq<Str>>

    ghost predicate Valid()
      reads this
    {
      && Indexed(tokens, id) && classes.Valid()
      && Entered(byteToUnicode, unicodeToByte, Between(0, 256))
      && (special.Some? ==> SpecialList(special.value))
    }

    ghost predicate SpecialList(list: seq<Str>) {
      ByLength(list) && forall t :: t in list <==> IsSpecial(tokens, |merges| == 0, t)
    }

    constructor (tokens: seq<Str>, id: map<Str, nat>, merges: Merges, classes: Classes, byteToUnicode: map<Byte, Str>, unicodeToByte: map<Str, Byte>)
      requires Indexed(tokens, id) && classes.Valid() && Entered(byteToUnicode, unicodeToByte, Between(0, 256))
      ensures Valid() && special == None
      ensures this.tokens == tokens && this.id == id && this.merges == merges && this.classes == classes
    {
      this.tokens, this.id, this.merges, this.classes := tokens, id, merges, classes;
      this.byteToUnicode, this.unicodeToByte := byteToUnicode, unicodeToByte;
      special := None;
    }

    /** The list is built on first use; an empty list stays nil and is built again. */
    method EnsureSpecial() returns (list: seq<Str>)
      requires Valid()
      modifies this`special
      ensures Valid() && SpecialList(list)
      ensures if old(special.Some?) then list == old(special.value) && special == old(special) else special == if list == [] then None else Some(list)
    {
      if special.Some? { return special.value; }
      list := BuildSpecialTokens(tokens, |merges| == 0);
      if list != [] { special := Some(list); }
    }

    /** Vocabulary ids of all symbols, or an error on the first unknown one. */
    method Lookup(symbols: seq<Str>) returns (r: Option<seq<int>>)
      requires Valid()
      ensures r.Some? ==> Names(tokens, symbols, r.value) && Identified(id, symbols, r.value)
      ensures r.None? ==> exists s :: s in symbols && s !in id
    {
      var ids := [];
      for i := 0 to |symbols|
        invariant Names(tokens, symbols[..i], ids) && Identified(id, symbols[..i], ids)
      {
        if symbols[i] !in id { return None; }
        ids := ids + [id[symbols[i]]];
      }
      assert symbols[..|symbols|] == symbols;
      r := Some(ids);
    }

    /** One piece: bytes to letters, merges, ids. They decode to the piece. */
    method EncodePiece(piece: Str) returns (r: Option<seq<int>>)
      requires Valid()
      ensures r.Some? ==> PieceIds(merges, id, piece, r.value)
      ensures r.None? ==> forall ids :: !PieceIds(merges, id, piece, ids)
      ensures r.Some? ==> Decoded(tokens, r.value) == piece
      ensures Complete(merges, id.Keys) ==> r.Some?
    {
      hide Entered, Decoded, Names, Complete, Bytes, MergesTo, Concat, Spelled, Symbols;
      var word := ByteEncodeWord(byteToUnicode, unicodeToByte, piece);
      var symbols := Bpe(merges, word);
      r := Lookup(symbols);
      if r.Some? {
        DecodedSymbols(tokens, symbols, r.value);
        MergedWord(merges, piece, symbols);
      } else {
        Unnamed(merges, id, piece, symbols);
      }
      if Complete(merges, id.Keys) { MergedInVocab(merges, id.Keys, piece, symbols); }
    }

    /** The ids of a plain segment, if all its symbols have one. They decode to it after conversion to runes and back. */
    method EncodeSegment(text: Str) returns (r: Option<seq<int>>)
      requires Valid()
      ensures r.Some? ==> SegmentIds(merges, id, classes, Segment(text, false), r.value)
      ensures r.None? ==> forall ids :: !SegmentIds(merges, id, classes, Segment(text, false), ids)
      ensures r.Some? ==> Decoded(tokens, r.value) == Sanitize(text)
      ensures Complete(merges, id.Keys) ==> r.Some?
    {
      hide Entered, Decoded, Complete, Write, Join, Classes.Valid, Indexed, CutPieces, Chained, PieceIds;
      RunesAreValid(text);
      var pieces := PretokenizeRunes(classes, Runes(text));
      ghost var part := OfPiece(merges, id);
      var out := [];
      NothingChained(part);
      NothingDecoded(tokens);
      NothingJoinedWritten();
      for k := 0 to |pieces|
        invariant Decoded(tokens, out) == Write(Join(pieces[..k])) && Chained(part, pieces[..k], out)
      {
        var ids := EncodePiece(Write(pieces[k]));
        if ids.None? {
          forall all ensures !Chained(part, pieces, all) { NotChained(part, pieces, k, all); }
          return None;
        }
        ChainedMore(part, pieces[..k], pieces[k], out, ids.value);
        DecodedAppend(tokens, out, ids.value);
        WriteJoin(pieces[..k], pieces[k]);
        assert pieces[..k + 1] == pieces[..k] + [pieces[k]];
        out := out + ids.value;
      }
      assert pieces[..|pieces|] == pieces;
      r := Some(out);
    }

    /** The ids of the text, if all its symbols have one. They decode to what the special-token split of the text restores to. */
    method Encode(text: Str) returns (r: Option<seq<int>>, ghost list: seq<Str>, ghost segs: seq<Segment>)
      requires Valid()
      modifies this`special
      ensures Valid()
      ensures text == [] ==> r == Some([]) && segs == []
      ensures text != [] ==> SpecialList(list) && Splits(text, list, 0, segs, |text|)
      ensures text != [] && r.Some? ==> TextIds(merges, id, classes, list, text, r.value)
      ensures text != [] && r.None? ==> forall ids :: !TextIds(merges, id, classes, list, text, ids)
      ensures text != [] && r.Some? ==> Decoded(tokens, r.value) == Restored(segs)
      ensures Complete(merges, id.Keys) ==> r.Some?
    {
      hide Entered, Decoded, Complete, Sanitize, Bytes, Splits, Indexed, Classes.Valid, SpecialList, Chained, SegmentIds;
      list, segs := [], [];
      if text == [] { return Some([]), [], []; }
      var special := EnsureSpecial();
      list := special;
      SpecialsNonEmpty(list);
      var parts := SplitBySpecial(text, special);
      segs := parts;
      ghost var part := OfSegment(merges, id, classes);
      var out := [];
      NothingChained(part);
      NothingDecoded(tokens);
      for k := 0 to |parts|
        invariant Decoded(tokens, out) == Restored(parts[..k]) && Chained(part, parts[..k], out)
        invariant Valid() && SpecialList(list)
      {
        assert parts[..k + 1][..k] == parts[..k] && parts[..k + 1] == parts[..k] + [parts[k]];
        var g := parts[k];
        var ids: seq<int>;
        if g.isSpecial {
          SpecialInVocab(text, list, parts, k);
          ids := [id[g.text]];
          SpecialIds(g);
          DecodedSingle(tokens, id[g.text]);
        } else {
          var e := EncodeSegment(g.text);
          assert g == Segment(g.text, false);
          if e.None? {
            forall all ensures !TextIds(merges, id, classes, list, text, all) { NoTextIds(list, text, parts, k, all); }
            return None, list, segs;
          }
          ids := e.value;
        }
        ChainedMore(part, parts[..k], g, out, ids);
        DecodedAppend(tokens, out, ids);
        out := out + ids;
      }
      assert parts[..|parts|] == parts;
      r := Some(out);
    }

    lemma SpecialIds(g: Segment)
      requires g.isSpecial && g.text in id
      ensures SegmentIds(merges, id, classes, g, [id[g.text]])
    {
    }

    lemma NoTextIds(list: seq<Str>, text: Str, segs: seq<Segment>, k: nat, ids: seq<int>)
      requires Splits(text, list, 0, segs, |text|) && k < |segs| && forall x :: !SegmentIds(merges, id, classes, segs[k], x)
      ensures !TextIds(merges, id, classes, list, text, ids)
    {
      hide Splits, Chained, SegmentIds;
      var part := OfSegment(merges, id, classes);
      forall other | Splits(text, list, 0, other, |text|) ensures !Chained(part, other, ids) {
        SplitOneWay(text, list, 0, segs, other);
        NotChained(part, segs, k, ids);
      }
    }

    lemma SpecialsNonEmpty(list: seq<Str>)
      requires SpecialList(list)
      ensures ByLength(list) && forall t :: t in list ==> t != []
    {
    }

    lemma SpecialInVocab(text: Str, list: seq<Str>, segs: seq<Segment>, k: nat)
      requires Valid() && SpecialList(list) && Splits(text, list, 0, segs, |text|) && k < |segs| && segs[k].isSpecial
      ensures segs[k].text in id && DecodedOne(tokens, id[segs[k].text]) == Bytes(segs[k].text)
    {
      hide Bytes, Splits;
      SegmentsInPlace(text, list, segs, |text|, k);
    }

    /** Tokens decode one by one. */
    method Decode(ids: seq<int>) returns (s: Str)
      requires Valid()
      ensures s == Decoded(tokens, ids)
    {
      hide Decoded, Bytes, Entered;
      s := [];
      NothingDecoded(tokens);
      for i := 0 to |ids|
        invariant s == Decoded(tokens, ids[..i])
      {
        assert ids[..i + 1] == ids[..i] + [ids[i]];
        DecodedAppend(tokens, ids[..i], [ids[i]]);
        DecodedSingle(tokens, ids[i]);
        if 0 <= ids[i] < |tokens| {
          var t := ByteDecodeToken(byteToUnicode, unicodeToByte, tokens[ids[i]]);
          s := s + t;
        }
      }
      assert ids[..|ids|] == ids;
    }

    /** The round trip, for every text the encoder accepts. Where the special tokens that occur are plain ASCII, what comes back
        is the text converted to runes and back; for valid text and special tokens it is the text if and only if they are. */
    method RoundTrip(text: Str) returns (r: Option<Str>, ghost list: seq<Str>, ghost segs: seq<Segment>)
      requires Valid()
      modifies this`special
      ensures Valid()
      ensures text != [] ==> SpecialList(list) && Splits(text, list, 0, segs, |text|)
      ensures text == [] ==> segs == []
      ensures r.Some? && AsciiSpecials(segs) ==> r.value == Sanitize(text) && (r.value == text <==> Utf8.Valid(text))
      ensures r.Some? && Utf8.Valid(text) && (forall t :: IsSpecial(tokens, |merges| == 0, t) ==> Utf8.Valid(t)) ==>
        (r.value == text <==> AsciiSpecials(segs)) && |r.value| <= |text|
      ensures Complete(merges, id.Keys) ==> r.Some?
    {
      hide Entered, Decoded, Complete, Sanitize, Bytes, Splits, Indexed, Classes.Valid, Utf8.Valid, AsciiSpecials;
      SanitizeKeepsValid(text);
      var ids;
      ids, list, segs := Encode(text);
      if ids.None? { return None, list, segs; }
      var s := Decode(ids.value);
      if text == [] {
        NothingDecoded(tokens);
        NothingSanitized();
        NothingSpecial();
      } else {
        SpecialsNonEmpty(list);
        if AsciiSpecials(segs) {
          RestoredIsSanitized(text, list, segs, |segs|);
          WidthTotal(text, list, 0, segs, |text|);
          assert segs[..|segs|] == segs && text[..|text|] == text;
        }
        if Utf8.Valid(text) && (forall t :: IsSpecial(tokens, |merges| == 0, t) ==> Utf8.Valid(t)) {
          RestoredExactly(text, list, segs);
        }
      }
      r := Some(s);
    }
  }

  lemma Unnamed(merges: Merges, id: map<Str, nat>, piece: Str, symbols: seq<Str>)
    requires MergesTo(merges, Symbols(Spelled(piece)), symbols) && exists s :: s in symbols && s !in id
    ensures forall ids :: !PieceIds(merges, id, piece, ids)
  {
    hide MergesTo, Symbols, Spelled;
    forall ids ensures !PieceIds(merges, id, piece, ids) {
      if f :| MergesTo(merges, Symbols(Spelled(piece)), f) && Identified(id, f, ids) {
        MergesOneWay(merges, Symbols(Spelled(piece)), f, symbols);
      }
    }
  }

  lemma NothingSpecial()
    ensures AsciiSpecials([])
  {
  }

  lemma NothingChained<T(!new)>(part: (T, seq<int>) -> bool)
    ensures Chained(part, [], [])
  {
  }

  lemma NothingDecoded(tokens: seq<Str>)
    ensures Decoded(tokens, []) == []
  {
  }

  lemma SomeMerge(raw: seq<Str>, merges: Merges)
    requires Ranked(raw, merges) && raw != []
    ensures |merges| > 0
  {
    assert HasRank(raw[0], merges, 0);
    var pair :| Line(raw[0], pair) && pair in merges;
  }

  /** A vocabulary with merges is byte-encoded; one without goes to the greedy matcher. */
  datatype Loaded = ByteLevel(t: Tokenizer) | Greedy | BadMerge

  /** Loading for the Qwen2 pretokenizer. */
  method LoadBPE(tokens: seq<Str>, raw: Option<seq<Str>>, classes: Classes) returns (r: Loaded)
    requires classes.Valid()
    ensures r.ByteLevel? ==> fresh(r.t) && r.t.Valid() && r.t.tokens == tokens && r.t.classes == classes && raw.Some? && Ranked(raw.value, r.t.merges)
    ensures r.Greedy? ==> raw == None || raw.value == []
    ensures r.BadMerge? ==> raw.Some? && exists m :: m in raw.value && NoBlank(m)
  {
    var id := IndexTokens(tokens);
    if raw == None { return Greedy; }
    var merges := RankMerges(raw.value);
    if merges.None? { return BadMerge; }
    if raw.value != [] { SomeMerge(raw.value, merges.value); }
    if |merges.value| == 0 {
      return Greedy;
    }
    var b2u, u2b := ByteAlphabet.Init();
    var t := new Tokenizer(tokens, id, merges.value, classes, b2u, u2b);
    r := ByteLevel(t);
  }
}
