/** The hand-written Qwen2 pretokenizer, against a backtracking matcher run on the published Qwen2 pattern. */
module Pretokenizer {
  import opened Wrappers
  import opened Utf8

  const CR: int := 0x0D
  const LF: int := 0x0A
  const BLANK: int := 0x20
  const QUOTE: int := 0x27
  const OUT_OF_RANGE: int := -1

  /** Unicode classification as far as the pretokenizer asks for it. */
  datatype Classes = Classes(letter: int -> bool, number: int -> bool, space: int -> bool, lower: int -> int) {
    /** A rune is in one class at most; CR, LF and blank are space. */
    ghost predicate Valid() {
      && (forall r :: !(letter(r) && number(r)) && !(letter(r) && space(r)) && !(number(r) && space(r)))
      && space(CR) && space(LF) && space(BLANK)
    }

    /** Go's regexp classifies letters and numbers by Unicode, but \s is ASCII: tab, line feed, form feed, return and blank. */
    function Go(): Classes {
      this.(space := r => r == '\t' as int || r == '\n' as int || r == 0x0C || r == '\r' as int || r == ' ' as int)
    }

    /** What Go's \s takes is space. */
    ghost predicate CoversGo() {
      space(0x09) && space(0x0C)
    }
  }

  // ---------------------------------------------------------------------------------
  // The pattern published with the Qwen2 tokenizer
  //   (?i:'s|'t|'re|'ve|'m|'ll|'d)|[^\r\n\p{L}\p{N}]?\p{L}+|\p{N}| ?[^\s\p{L}\p{N}]+[\r\n]*|\s*[\r\n]+|\s+(?!\S)|\s+
  // ---------------------------------------------------------------------------------

  datatype Atom = Quote | Fold(c: int) | L | N | S | NotS | Other | NewLine | Blank | Glue

  predicate In(cl: Classes, a: Atom, r: int) {
    match a
    case Quote => r == '\'' as int
    case Fold(c) => cl.lower(r) == c
    case L => cl.letter(r)
    case N => cl.number(r)
    case S => cl.space(r)
    case NotS => !cl.space(r)
    case Other => !cl.space(r) && !cl.letter(r) && !cl.number(r)
    case NewLine => r == '\r' as int || r == '\n' as int
    case Blank => r == ' ' as int
    case Glue => r != '\r' as int && r != '\n' as int && !cl.letter(r) && !cl.number(r)
  }

  /** One rune of a class, an optional one, greedily many, and a negative look-ahead. */
  datatype Item = One(a: Atom) | Opt(a: Atom) | Star(a: Atom) | NotNext(a: Atom)

  predicate Has(cl: Classes, a: Atom, s: seq<int>, pos: nat) {
    pos < |s| && In(cl, a, s[pos])
  }

  /** The first match in backtracking order, as the position behind it. */
  function Match(cl: Classes, items: seq<Item>, s: seq<int>, pos: nat): (m: Option<nat>)
    requires pos <= |s|
    ensures m.Some? ==> pos <= m.value <= |s|
    decreases |items|, |s| - pos
  {
    if items == [] then Some(pos)
    else
      var rest := items[1..];
      match items[0]
      case One(a) => if Has(cl, a, s, pos) then Match(cl, rest, s, pos + 1) else None
      case Opt(a) => if Has(cl, a, s, pos) && Match(cl, rest, s, pos + 1).Some? then Match(cl, rest, s, pos + 1) else Match(cl, rest, s, pos)
      case Star(a) => if Has(cl, a, s, pos) && Match(cl, items, s, pos + 1).Some? then Match(cl, items, s, pos + 1) else Match(cl, rest, s, pos)
      case NotNext(a) => if Has(cl, a, s, pos) then None else Match(cl, rest, s, pos)
  }

  function FirstMatch(cl: Classes, alts: seq<seq<Item>>, s: seq<int>, pos: nat): (m: Option<nat>)
    requires pos <= |s|
    ensures m.Some? ==> pos <= m.value <= |s|
  {
    if alts == [] then None
    else if Match(cl, alts[0], s, pos).Some? then Match(cl, alts[0], s, pos)
    else FirstMatch(cl, alts[1..], s, pos)
  }

  const CONTRACTIONS: seq<seq<Item>> := [
    [One(Quote), One(Fold(0x73))],
    [One(Quote), One(Fold(0x74))],
    [One(Quote), One(Fold(0x72)), One(Fold(0x65))],
    [One(Quote), One(Fold(0x76)), One(Fold(0x65))],
    [One(Quote), One(Fold(0x6D))],
    [One(Quote), One(Fold(0x6C)), One(Fold(0x6C))],
    [One(Quote), One(Fold(0x64))]
  ]

  const WORD: seq<Item> := [Opt(Glue), One(L), Star(L)]
  const DIGIT: seq<Item> := [One(N)]
  const SYMBOLS: seq<Item> := [Opt(Blank), One(Other), Star(Other), Star(NewLine)]
  const LINES: seq<Item> := [Star(S), One(NewLine), Star(NewLine)]
  const INNER_SPACE: seq<Item> := [One(S), Star(S), NotNext(NotS)]
  const SPACE: seq<Item> := [One(S), Star(S)]

  function Qwen2Match(cl: Classes, s: seq<int>, pos: nat): (m: Option<nat>)
    requires pos <= |s|
    ensures m.Some? ==> pos <= m.value <= |s|
  {
    FirstMatch(cl, CONTRACTIONS + [WORD, DIGIT, SYMBOLS, LINES, INNER_SPACE, SPACE], s, pos)
  }

  const GO_PATTERN: seq<seq<Item>> := CONTRACTIONS + [WORD, DIGIT, SYMBOLS, LINES, SPACE]

  /** The pattern as Go's regexp holds and reads it: without look-ahead, hence without that alternative, and with ASCII \s. */
  function GoMatch(cl: Classes, s: seq<int>, pos: nat): (m: Option<nat>)
    requires pos <= |s|
    ensures m.Some? ==> pos <= m.value <= |s|
  {
    FirstMatch(cl.Go(), GO_PATTERN, s, pos)
  }

  // ---------------------------------------------------------------------------------
  // What greedy items do
  // ---------------------------------------------------------------------------------

  function RunEnd(cl: Classes, a: Atom, s: seq<int>, pos: nat): (e: nat)
    requires pos <= |s|
    ensures pos <= e <= |s|
    ensures !Has(cl, a, s, e)
    decreases |s| - pos
  {
    if Has(cl, a, s, pos) then RunEnd(cl, a, s, pos + 1) else pos
  }

  /** A star whose rest matches at the end of the run takes the whole run. */
  lemma {:induction false} StarTakesRun(cl: Classes, a: Atom, rest: seq<Item>, s: seq<int>, pos: nat)
    requires pos <= |s| && Match(cl, rest, s, RunEnd(cl, a, s, pos)).Some?
    ensures Match(cl, [Star(a)] + rest, s, pos) == Match(cl, rest, s, RunEnd(cl, a, s, pos))
    decreases |s| - pos
  {
    assert ([Star(a)] + rest)[1..] == rest;
    if Has(cl, a, s, pos) {
      StarTakesRun(cl, a, rest, s, pos + 1);
    }
  }

  lemma StarEnds(cl: Classes, a: Atom, s: seq<int>, pos: nat)
    requires pos <= |s|
    ensures Match(cl, [Star(a)], s, pos) == Some(RunEnd(cl, a, s, pos))
  {
    StarTakesRun(cl, a, [], s, pos);
    assert [Star(a)] + [] == [Star(a)];
  }

  lemma OneStar(cl: Classes, a: Atom, b: Atom, s: seq<int>, pos: nat)
    requires pos <= |s|
    ensures Match(cl, [One(a), Star(b)], s, pos) == if Has(cl, a, s, pos) then Some(RunEnd(cl, b, s, pos + 1)) else None
  {
    assert [One(a), Star(b)][1..] == [Star(b)];
    if Has(cl, a, s, pos) { StarEnds(cl, b, s, pos + 1); }
  }

  lemma WordMatch(cl: Classes, s: seq<int>, pos: nat)
    requires cl.Valid() && pos <= |s|
    ensures Match(cl, WORD, s, pos) ==
      if Has(cl, Glue, s, pos) && Has(cl, L, s, pos + 1) then Some(RunEnd(cl, L, s, pos + 1))
      else if Has(cl, L, s, pos) then Some(RunEnd(cl, L, s, pos + 1)) else None
  {
    assert WORD[1..] == [One(L), Star(L)];
    OneStar(cl, L, L, s, pos);
    if pos < |s| { OneStar(cl, L, L, s, pos + 1); }
  }

  lemma OtherThenLines(cl: Classes, s: seq<int>, pos: nat)
    requires pos <= |s|
    ensures Match(cl, [One(Other), Star(Other), Star(NewLine)], s, pos) ==
      if Has(cl, Other, s, pos) then Some(RunEnd(cl, NewLine, s, RunEnd(cl, Other, s, pos + 1))) else None
  {
    var items := [One(Other), Star(Other), Star(NewLine)];
    assert items[1..] == [Star(Other)] + [Star(NewLine)];
    if Has(cl, Other, s, pos) {
      StarEnds(cl, NewLine, s, RunEnd(cl, Other, s, pos + 1));
      StarTakesRun(cl, Other, [Star(NewLine)], s, pos + 1);
    }
  }

  lemma SymbolsMatch(cl: Classes, s: seq<int>, pos: nat)
    requires cl.Valid() && pos <= |s|
    ensures Match(cl, SYMBOLS, s, pos) ==
      if Has(cl, Blank, s, pos) && Has(cl, Other, s, pos + 1) then Some(RunEnd(cl, NewLine, s, RunEnd(cl, Other, s, pos + 2)))
      else if Has(cl, Other, s, pos) then Some(RunEnd(cl, NewLine, s, RunEnd(cl, Other, s, pos + 1))) else None
  {
    assert SYMBOLS[1..] == [One(Other), Star(Other), Star(NewLine)];
    OtherThenLines(cl, s, pos);
    if pos < |s| { OtherThenLines(cl, s, pos + 1); }
  }

  /** Behind the last newline of the whitespace run at pos, or 0. */
  function LastNewLine(cl: Classes, s: seq<int>, pos: nat): (e: nat)
    requires pos <= |s|
    ensures e > 0 ==> pos < e <= |s|
    decreases |s| - pos
  {
    if !Has(cl, S, s, pos) then 0
    else if LastNewLine(cl, s, pos + 1) > 0 then LastNewLine(cl, s, pos + 1)
    else if In(cl, NewLine, s[pos]) then pos + 1 else 0
  }

  lemma {:induction false} LinesMatch(cl: Classes, s: seq<int>, pos: nat)
    requires cl.Valid() && pos <= |s|
    ensures Match(cl, LINES, s, pos) == if LastNewLine(cl, s, pos) > 0 then Some(LastNewLine(cl, s, pos)) else None
    decreases |s| - pos
  {
    assert LINES[1..] == [One(NewLine), Star(NewLine)];
    OneStar(cl, NewLine, NewLine, s, pos);
    if Has(cl, S, s, pos) {
      LinesMatch(cl, s, pos + 1);
      if LastNewLine(cl, s, pos + 1) == 0 { NoNewLineNext(cl, s, pos + 1); }
    }
  }

  lemma NoNewLineNext(cl: Classes, s: seq<int>, pos: nat)
    requires cl.Valid() && pos <= |s| && LastNewLine(cl, s, pos) == 0
    ensures RunEnd(cl, NewLine, s, pos) == pos
  {
  }

  lemma NotNextMatch(cl: Classes, s: seq<int>, pos: nat)
    requires pos <= |s|
    ensures Match(cl, [NotNext(NotS)], s, pos) == if Has(cl, NotS, s, pos) then None else Some(pos)
  {
    assert [NotNext(NotS)][1..] == [];
  }

  lemma {:induction false} SpaceBefore(cl: Classes, s: seq<int>, pos: nat)
    requires pos <= |s|
    ensures var e := RunEnd(cl, S, s, pos);
      Match(cl, [Star(S), NotNext(NotS)], s, pos) == if e == |s| then Some(e) else if e > pos then Some((e - 1) as nat) else None
    decreases |s| - pos
  {
    var items := [Star(S), NotNext(NotS)];
    assert items[1..] == [NotNext(NotS)];
    NotNextMatch(cl, s, pos);
    if Has(cl, S, s, pos) { SpaceBefore(cl, s, pos + 1); }
  }

  lemma InnerSpaceMatch(cl: Classes, s: seq<int>, pos: nat)
    requires pos <= |s|
    ensures Match(cl, INNER_SPACE, s, pos) ==
      if !Has(cl, S, s, pos) then None
      else var e := RunEnd(cl, S, s, pos + 1); if e == |s| then Some(e) else if e > pos + 1 then Some((e - 1) as nat) else None
  {
    assert INNER_SPACE[1..] == [Star(S), NotNext(NotS)];
    if Has(cl, S, s, pos) { SpaceBefore(cl, s, pos + 1); }
  }

  lemma SpaceMatch(cl: Classes, s: seq<int>, pos: nat)
    requires pos <= |s|
    ensures Match(cl, SPACE, s, pos) == if Has(cl, S, s, pos) then Some(RunEnd(cl, S, s, pos + 1)) else None
  {
    OneStar(cl, S, S, s, pos);
  }

  lemma DigitMatch(cl: Classes, s: seq<int>, pos: nat)
    requires pos <= |s|
    ensures Match(cl, DIGIT, s, pos) == if Has(cl, N, s, pos) then Some(pos + 1) else None
  {
    assert DIGIT[1..] == [];
  }

  lemma LiteralOne(cl: Classes, a: Atom, s: seq<int>, pos: nat)
    requires pos <= |s|
    ensures Match(cl, [One(a)], s, pos) == if Has(cl, a, s, pos) then Some(pos + 1) else None
  {
    assert [One(a)][1..] == [];
  }

  lemma LiteralTwo(cl: Classes, a: Atom, b: Atom, s: seq<int>, pos: nat)
    requires pos <= |s|
    ensures Match(cl, [One(a), One(b)], s, pos) == if Has(cl, a, s, pos) && Has(cl, b, s, pos + 1) then Some(pos + 2) else None
  {
    assert [One(a), One(b)][1..] == [One(b)];
    if Has(cl, a, s, pos) { LiteralOne(cl, b, s, pos + 1); }
  }

  lemma LiteralThree(cl: Classes, a: Atom, b: Atom, c: Atom, s: seq<int>, pos: nat)
    requires pos <= |s|
    ensures Match(cl, [One(a), One(b), One(c)], s, pos) ==
      if Has(cl, a, s, pos) && Has(cl, b, s, pos + 1) && Has(cl, c, s, pos + 2) then Some(pos + 3) else None
  {
    assert [One(a), One(b), One(c)][1..] == [One(b), One(c)];
    if Has(cl, a, s, pos) { LiteralTwo(cl, b, c, s, pos + 1); }
  }

  lemma {:induction false} FirstOfBoth(cl: Classes, a: seq<seq<Item>>, b: seq<seq<Item>>, s: seq<int>, pos: nat)
    requires pos <= |s|
    ensures FirstMatch(cl, a + b, s, pos) == if FirstMatch(cl, a, s, pos).Some? then FirstMatch(cl, a, s, pos) else FirstMatch(cl, b, s, pos)
  {
    hide Match;
    if a == [] {
      assert a + b == b;
    } else {
      FirstOfBoth(cl, a[1..], b, s, pos);
      TailOfSum(a, b);
    }
  }

  lemma FirstOfOne(cl: Classes, a: seq<Item>, rest: seq<seq<Item>>, s: seq<int>, pos: nat)
    requires pos <= |s|
    ensures FirstMatch(cl, [a] + rest, s, pos) == if Match(cl, a, s, pos).Some? then Match(cl, a, s, pos) else FirstMatch(cl, rest, s, pos)
  {
    TailOfSum([a], rest);
  }

  /** The end of a contraction at pos. */
  function Contraction(cl: Classes, s: seq<int>, pos: nat): (e: Option<nat>)
    ensures e.Some? ==> pos < e.value <= |s|
  {
    if !Has(cl, Quote, s, pos) || pos + 1 >= |s| then None
    else
      var next := cl.lower(s[pos + 1]);
      if next == 0x73 || next == 0x74 || next == 0x6D || next == 0x64 then Some(pos + 2)
      else if pos + 2 >= |s| then None
      else
        var next2 := cl.lower(s[pos + 2]);
        if (next == 0x72 && next2 == 0x65) || (next == 0x76 && next2 == 0x65) || (next == 0x6C && next2 == 0x6C) then Some(pos + 3) else None
  }

  lemma ContractionMatch(cl: Classes, s: seq<int>, pos: nat)
    requires pos <= |s|
    ensures FirstMatch(cl, CONTRACTIONS, s, pos) == Contraction(cl, s, pos)
  {
    hide Match;
    LiteralTwo(cl, Quote, Fold(0x73), s, pos);
    LiteralTwo(cl, Quote, Fold(0x74), s, pos);
    LiteralThree(cl, Quote, Fold(0x72), Fold(0x65), s, pos);
    LiteralThree(cl, Quote, Fold(0x76), Fold(0x65), s, pos);
    LiteralTwo(cl, Quote, Fold(0x6D), s, pos);
    LiteralThree(cl, Quote, Fold(0x6C), Fold(0x6C), s, pos);
    LiteralTwo(cl, Quote, Fold(0x64), s, pos);
    var a := CONTRACTIONS;
    assert a == [a[0]] + a[1..] && a[1..] == [a[1]] + a[2..] && a[2..] == [a[2]] + a[3..] && a[3..] == [a[3]] + a[4..];
    assert a[4..] == [a[4]] + a[5..] && a[5..] == [a[5]] + a[6..] && a[6..] == [a[6]] + [];
    FirstOfOne(cl, a[0], a[1..], s, pos);
    FirstOfOne(cl, a[1], a[2..], s, pos);
    FirstOfOne(cl, a[2], a[3..], s, pos);
    FirstOfOne(cl, a[3], a[4..], s, pos);
    FirstOfOne(cl, a[4], a[5..], s, pos);
    FirstOfOne(cl, a[5], a[6..], s, pos);
    FirstOfOne(cl, a[6], [], s, pos);
  }

  function OrElse(a: Option<nat>, b: Option<nat>): Option<nat> {
    if a.Some? then a else b
  }

  /** The first alternatives of both patterns, whatever comes after them. */
  lemma Alternatives(cl: Classes, tail: seq<seq<Item>>, s: seq<int>, pos: nat)
    requires pos <= |s|
    ensures FirstMatch(cl, CONTRACTIONS + ([WORD, DIGIT, SYMBOLS, LINES] + tail), s, pos) ==
      OrElse(Contraction(cl, s, pos), OrElse(Match(cl, WORD, s, pos), OrElse(Match(cl, DIGIT, s, pos),
        OrElse(Match(cl, SYMBOLS, s, pos), OrElse(Match(cl, LINES, s, pos), FirstMatch(cl, tail, s, pos))))))
  {
    hide Match, Contraction;
    FirstOfBoth(cl, CONTRACTIONS, [WORD, DIGIT, SYMBOLS, LINES] + tail, s, pos);
    ContractionMatch(cl, s, pos);
    assert [WORD, DIGIT, SYMBOLS, LINES] + tail == [WORD] + ([DIGIT, SYMBOLS, LINES] + tail);
    assert [DIGIT, SYMBOLS, LINES] + tail == [DIGIT] + ([SYMBOLS, LINES] + tail);
    assert [SYMBOLS, LINES] + tail == [SYMBOLS] + ([LINES] + tail);
    FirstOfOne(cl, WORD, [DIGIT, SYMBOLS, LINES] + tail, s, pos);
    FirstOfOne(cl, DIGIT, [SYMBOLS, LINES] + tail, s, pos);
    FirstOfOne(cl, SYMBOLS, [LINES] + tail, s, pos);
    FirstOfOne(cl, LINES, tail, s, pos);
  }

  /** The last alternatives, with and without the look-ahead. */
  lemma Spaces(cl: Classes, s: seq<int>, pos: nat)
    requires pos <= |s|
    ensures FirstMatch(cl, [INNER_SPACE, SPACE], s, pos) == OrElse(Match(cl, INNER_SPACE, s, pos), Match(cl, SPACE, s, pos))
    ensures FirstMatch(cl, [SPACE], s, pos) == Match(cl, SPACE, s, pos)
  {
    hide Match;
    assert [INNER_SPACE, SPACE] == [INNER_SPACE] + [SPACE] && [SPACE] == [SPACE] + [];
    FirstOfOne(cl, INNER_SPACE, [SPACE], s, pos);
    FirstOfOne(cl, SPACE, [], s, pos);
  }

  /** The whole pattern by cases of what stands at pos. */
  lemma Qwen2Cases(cl: Classes, s: seq<int>, pos: nat)
    requires cl.Valid() && pos < |s|
    ensures Qwen2Match(cl, s, pos) ==
      if Contraction(cl, s, pos).Some? then Contraction(cl, s, pos)
      else if Has(cl, L, s, pos) || (Has(cl, Glue, s, pos) && Has(cl, L, s, pos + 1)) then Some(RunEnd(cl, L, s, pos + 1))
      else if Has(cl, N, s, pos) then Some(pos + 1)
      else if Has(cl, Blank, s, pos) && Has(cl, Other, s, pos + 1) then Some(RunEnd(cl, NewLine, s, RunEnd(cl, Other, s, pos + 2)))
      else if Has(cl, Other, s, pos) then Some(RunEnd(cl, NewLine, s, RunEnd(cl, Other, s, pos + 1)))
      else if LastNewLine(cl, s, pos) > 0 then Some(LastNewLine(cl, s, pos))
      else var e := RunEnd(cl, S, s, pos + 1); if e < |s| && e > pos + 1 then Some((e - 1) as nat) else Some(e)
  {
    hide Match, Contraction, LastNewLine, RunEnd, FirstMatch;
    assert CONTRACTIONS + [WORD, DIGIT, SYMBOLS, LINES, INNER_SPACE, SPACE] ==
      CONTRACTIONS + ([WORD, DIGIT, SYMBOLS, LINES] + [INNER_SPACE, SPACE]);
    Alternatives(cl, [INNER_SPACE, SPACE], s, pos);
    Spaces(cl, s, pos);
    WordMatch(cl, s, pos);
    DigitMatch(cl, s, pos);
    SymbolsMatch(cl, s, pos);
    LinesMatch(cl, s, pos);
    InnerSpaceMatch(cl, s, pos);
    SpaceMatch(cl, s, pos);
  }

  /** The same for the pattern without look-ahead: whitespace with no newline is always taken whole. */
  lemma PlainCases(cl: Classes, s: seq<int>, pos: nat)
    requires cl.Valid() && pos < |s|
    ensures FirstMatch(cl, GO_PATTERN, s, pos) ==
      if Contraction(cl, s, pos).Some? then Contraction(cl, s, pos)
      else if Has(cl, L, s, pos) || (Has(cl, Glue, s, pos) && Has(cl, L, s, pos + 1)) then Some(RunEnd(cl, L, s, pos + 1))
      else if Has(cl, N, s, pos) then Some(pos + 1)
      else if Has(cl, Blank, s, pos) && Has(cl, Other, s, pos + 1) then Some(RunEnd(cl, NewLine, s, RunEnd(cl, Other, s, pos + 2)))
      else if Has(cl, Other, s, pos) then Some(RunEnd(cl, NewLine, s, RunEnd(cl, Other, s, pos + 1)))
      else if LastNewLine(cl, s, pos) > 0 then Some(LastNewLine(cl, s, pos))
      else Some(RunEnd(cl, S, s, pos + 1))
  {
    hide Match, Contraction, LastNewLine, RunEnd, FirstMatch;
    assert GO_PATTERN == CONTRACTIONS + ([WORD, DIGIT, SYMBOLS, LINES] + [SPACE]);
    Alternatives(cl, [SPACE], s, pos);
    Spaces(cl, s, pos);
    WordMatch(cl, s, pos);
    DigitMatch(cl, s, pos);
    SymbolsMatch(cl, s, pos);
    LinesMatch(cl, s, pos);
    SpaceMatch(cl, s, pos);
  }

  /** Whitespace that Go's \s does not take, such as a no-break space: a symbol to that pattern. */
  predicate Odd(cl: Classes, s: seq<int>, pos: nat) {
    Has(cl, S, s, pos) && !Has(cl.Go(), S, s, pos)
  }

  /** Where the two patterns take the same whitespace at pos. With ASCII whitespace only: unless the look-ahead gives back a rune.
      With an odd rune at once, which Go glues to the symbols behind it: if newlines follow and no later ones in the run, or
      without newlines, if one rune is given back in front of text, or the odd runes end the text or are one rune. With an odd
      rune later, where Go stops: if the last newline is before it, or without newlines, if it is the rune given back. */
  predicate SameSpace(cl: Classes, s: seq<int>, pos: nat)
    requires Has(cl, S, s, pos)
  {
    var e, n, h := RunEnd(cl, S, s, pos), LastNewLine(cl, s, pos), RunEnd(cl.Go(), S, s, pos);
    if h == e then
      n > 0 || e == |s| || e == pos + 1
    else if h == pos || (h == pos + 1 && Has(cl, Blank, s, pos)) then
      var x := RunEnd(cl.Go(), Other, s, h);
      if n > 0 then RunEnd(cl, NewLine, s, x) == n
      else (x == e && (e == |s| || e == pos + 1)) || (x + 1 == e && e < |s|)
    else
      if n > 0 then n <= h else h + 1 == e && e < |s|
  }

  /** Where they take the same at pos: symbols if no odd whitespace follows them, whitespace as above, everything else always. */
  predicate SamePiece(cl: Classes, s: seq<int>, pos: nat)
    requires pos < |s|
  {
    if Contraction(cl, s, pos).Some? || Has(cl, L, s, pos) || (Has(cl, Glue, s, pos) && Has(cl, L, s, pos + 1)) || Has(cl, N, s, pos) then true
    else if Has(cl, Blank, s, pos) && Has(cl, Other, s, pos + 1) then !Odd(cl, s, RunEnd(cl, Other, s, pos + 2))
    else if Has(cl, Other, s, pos) then !Odd(cl, s, RunEnd(cl, Other, s, pos + 1))
    else Has(cl, S, s, pos) && SameSpace(cl, s, pos)
  }

  lemma {:induction false} SameRun(cl: Classes, a: Atom, s: seq<int>, pos: nat)
    requires pos <= |s| && a in {L, NewLine}
    ensures RunEnd(cl.Go(), a, s, pos) == RunEnd(cl, a, s, pos)
    decreases |s| - pos
  {
    if Has(cl, a, s, pos) { SameRun(cl, a, s, pos + 1); }
  }

  /** Symbols to Go: symbols, and on through odd whitespace. */
  lemma {:induction false} SymbolRun(cl: Classes, s: seq<int>, pos: nat)
    requires cl.Valid() && cl.CoversGo() && pos <= |s|
    ensures var e, f := RunEnd(cl, Other, s, pos), RunEnd(cl.Go(), Other, s, pos); if Odd(cl, s, e) then f > e else f == e
    decreases |s| - pos
  {
    if Has(cl.Go(), Other, s, pos) { SymbolRun(cl, s, pos + 1); }
  }

  /** Go's whitespace ends with the run or at its first odd rune; behind the last newline before it, or else later. */
  lemma {:induction false} SpaceRun(cl: Classes, s: seq<int>, pos: nat)
    requires cl.Valid() && cl.CoversGo() && pos <= |s|
    ensures var e, h := RunEnd(cl, S, s, pos), RunEnd(cl.Go(), S, s, pos);
      && h <= e && (h < e <==> Odd(cl, s, h))
      && LastNewLine(cl, s, pos) == (if LastNewLine(cl, s, h) > 0 then LastNewLine(cl, s, h) else LastNewLine(cl.Go(), s, pos))
      && LastNewLine(cl.Go(), s, pos) <= h && LastNewLine(cl, s, pos) <= e
      && (LastNewLine(cl, s, h) > 0 ==> LastNewLine(cl, s, h) > h + 1)
    decreases |s| - pos
  {
    NewLineInRun(cl, s, pos);
    if Has(cl.Go(), S, s, pos) {
      SpaceRun(cl, s, pos + 1);
    } else if Odd(cl, s, pos) {
      NewLineInRun(cl, s, pos + 1);
    }
  }

  lemma {:induction false} NewLineInRun(cl: Classes, s: seq<int>, pos: nat)
    requires pos <= |s|
    ensures LastNewLine(cl, s, pos) <= RunEnd(cl, S, s, pos)
    decreases |s| - pos
  {
    if Has(cl, S, s, pos) { NewLineInRun(cl, s, pos + 1); }
  }

  /** Odd runes up to x: no newline among them, and behind them, inside the run, an ASCII one. */
  lemma {:induction false} OddRun(cl: Classes, s: seq<int>, pos: nat)
    requires cl.Valid() && cl.CoversGo() && pos <= |s|
    ensures var e, x := RunEnd(cl, S, s, pos), RunEnd(cl.Go(), Other, s, pos);
      && (x < e ==> Has(cl.Go(), S, s, x) && LastNewLine(cl, s, pos) == LastNewLine(cl, s, x))
      && (x >= e ==> LastNewLine(cl, s, pos) == 0)
    decreases |s| - pos
  {
    if Odd(cl, s, pos) { OddRun(cl, s, pos + 1); }
  }

  /** Where Go's pattern ends at symbols or whitespace. */
  function GoSpaceEnd(cl: Classes, s: seq<int>, pos: nat): nat
    requires pos < |s|
  {
    var g := cl.Go();
    if Has(g, Blank, s, pos) && Has(g, Other, s, pos + 1) then RunEnd(g, NewLine, s, RunEnd(g, Other, s, pos + 2))
    else if Has(g, Other, s, pos) then RunEnd(g, NewLine, s, RunEnd(g, Other, s, pos + 1))
    else if LastNewLine(g, s, pos) > 0 then LastNewLine(g, s, pos)
    else RunEnd(g, S, s, pos + 1)
  }

  lemma SameContraction(cl: Classes, s: seq<int>, pos: nat)
    ensures Contraction(cl.Go(), s, pos) == Contraction(cl, s, pos)
  {
  }

  /** Up to the symbols, the classes of the two patterns are the same. */
  lemma GoCases(cl: Classes, s: seq<int>, pos: nat)
    requires cl.Valid() && cl.CoversGo() && pos < |s|
    ensures GoMatch(cl, s, pos) ==
      if Contraction(cl, s, pos).Some? then Contraction(cl, s, pos)
      else if Has(cl, L, s, pos) || (Has(cl, Glue, s, pos) && Has(cl, L, s, pos + 1)) then Some(RunEnd(cl, L, s, pos + 1))
      else if Has(cl, N, s, pos) then Some(pos + 1)
      else Some(GoSpaceEnd(cl, s, pos))
  {
    hide LastNewLine, FirstMatch, Contraction, RunEnd;
    PlainCases(cl.Go(), s, pos);
    SameContraction(cl, s, pos);
    SameRun(cl, L, s, pos + 1);
  }

  lemma SymbolsAgree(cl: Classes, s: seq<int>, from: nat)
    requires cl.Valid() && cl.CoversGo() && from <= |s|
    ensures RunEnd(cl.Go(), NewLine, s, RunEnd(cl.Go(), Other, s, from)) == RunEnd(cl, NewLine, s, RunEnd(cl, Other, s, from))
      <==> !Odd(cl, s, RunEnd(cl, Other, s, from))
  {
    SymbolRun(cl, s, from);
    SameRun(cl, NewLine, s, RunEnd(cl.Go(), Other, s, from));
  }

  lemma SpacesAgree(cl: Classes, s: seq<int>, pos: nat)
    requires cl.Valid() && cl.CoversGo() && pos < |s| && Has(cl, S, s, pos)
    requires !(Has(cl, Blank, s, pos) && Has(cl, Other, s, pos + 1))
    ensures GoSpaceEnd(cl, s, pos) == SpaceEnd(cl, s, pos) <==> SameSpace(cl, s, pos)
  {
    var g, e, n, h := cl.Go(), RunEnd(cl, S, s, pos), LastNewLine(cl, s, pos), RunEnd(cl.Go(), S, s, pos);
    SpaceRun(cl, s, pos);
    assert e == RunEnd(cl, S, s, pos + 1);
    if h < e && (h == pos || (h == pos + 1 && Has(cl, Blank, s, pos))) {
      OddFirst(cl, s, pos, h);
    } else {
      hide LastNewLine;
      assert !Has(g, Other, s, pos) && !(Has(g, Blank, s, pos) && Has(g, Other, s, pos + 1));
    }
  }

  /** An odd rune at once, or behind one blank. */
  lemma OddFirst(cl: Classes, s: seq<int>, pos: nat, h: nat)
    requires cl.Valid() && cl.CoversGo() && pos < |s| && Has(cl, S, s, pos) && h == RunEnd(cl.Go(), S, s, pos) < RunEnd(cl, S, s, pos)
    requires h == pos || (h == pos + 1 && Has(cl, Blank, s, pos))
    ensures GoSpaceEnd(cl, s, pos) == SpaceEnd(cl, s, pos) <==> SameSpace(cl, s, pos)
  {
    var g, e, x := cl.Go(), RunEnd(cl, S, s, pos), RunEnd(cl.Go(), Other, s, h);
    SpaceRun(cl, s, pos);
    OddRun(cl, s, h);
    SameRun(cl, NewLine, s, x);
    assert GoSpaceEnd(cl, s, pos) == RunEnd(cl, NewLine, s, x);
    assert e == RunEnd(cl, S, s, h) == RunEnd(cl, S, s, pos + 1);
    assert LastNewLine(cl, s, pos) == LastNewLine(cl, s, h);
  }

  /** The pattern in the source and the published one end alike exactly where this says. */
  lemma PatternsAgree(cl: Classes, s: seq<int>, pos: nat)
    requires cl.Valid() && cl.CoversGo() && pos < |s|
    ensures GoMatch(cl, s, pos) == Qwen2Match(cl, s, pos) <==> SamePiece(cl, s, pos)
  {
    hide LastNewLine, GoMatch, Qwen2Match, Contraction, RunEnd, SameSpace;
    GoCases(cl, s, pos);
    Qwen2Cases(cl, s, pos);
    if Has(cl, Blank, s, pos) && Has(cl, Other, s, pos + 1) {
      SymbolsAgree(cl, s, pos + 2);
    } else if Has(cl, Other, s, pos) {
      SymbolsAgree(cl, s, pos + 1);
    } else if Has(cl, S, s, pos) {
      SpacesAgree(cl, s, pos);
    }
  }

  // ---------------------------------------------------------------------------------
  // The cursor loop
  // ---------------------------------------------------------------------------------

  datatype Flags = Flags(letter: bool, number: bool, whitespace: bool)

  function FlagsAt(cl: Classes, s: seq<int>, pos: nat): Flags {
    if pos < |s| then Flags(cl.letter(s[pos]), cl.number(s[pos]), cl.space(s[pos])) else Flags(false, false, false)
  }

  function Get(s: seq<int>, pos: nat): int {
    if pos < |s| then s[pos] else OUT_OF_RANGE
  }

  predicate IsText(s: seq<int>) {
    forall i :: 0 <= i < |s| ==> s[i] >= 0
  }

  /** The one deviation: a NUL does not start a run of symbols, so it stays alone although symbols or newlines follow. */
  predicate LoneNul(cl: Classes, s: seq<int>, pos: nat) {
    Get(s, pos) == 0 && Has(cl, Other, s, pos) && (Has(cl, Other, s, pos + 1) || Has(cl, NewLine, s, pos + 1))
  }

  /** One round of the loop. */
  method NextPiece(cl: Classes, s: seq<int>, start: nat) returns (pos: nat)
    requires cl.Valid() && IsText(s) && start < |s|
    ensures start < pos <= |s|
    ensures Qwen2Match(cl, s, start).Some? && Qwen2Match(cl, s, start).value > start
    ensures Qwen2Match(cl, s, start) == Some(pos) <==> !LoneNul(cl, s, start)
    ensures LoneNul(cl, s, start) ==> pos == start + 1
  {
    hide Qwen2Match, RunEnd, LastNewLine, Contraction, LoneNul;
    Qwen2Cases(cl, s, start);
    NulCases(cl, s, start);
    pos := start;
    var cpt := Get(s, pos);
    var flags := FlagsAt(cl, s, pos);
    var contraction := FindContraction(cl, s, pos);
    if contraction > 0 { return contraction; }
    if cpt != CR && cpt != LF && !flags.number {
      if flags.letter || FlagsAt(cl, s, pos + 1).letter {
        pos := SkipRun(cl, L, s, pos + 1);
        return;
      }
    }
    if flags.number { return pos + 1; }
    var flags2 := if cpt == BLANK then FlagsAt(cl, s, pos + 1) else flags;
    if !flags2.whitespace && !flags2.letter && !flags2.number && cpt != OUT_OF_RANGE && cpt != 0 {
      pos := SkipSymbols(cl, s, start, cpt);
      return;
    }
    pos := SkipSpace(cl, s, start);
  }

  /** A lone NUL, and what a NUL that is no symbol or has no symbols or newlines behind it matches. */
  lemma NulCases(cl: Classes, s: seq<int>, pos: nat)
    requires cl.Valid() && pos < |s|
    ensures LoneNul(cl, s, pos) ==> s[pos] == 0 && Has(cl, Other, s, pos) && !Has(cl, L, s, pos + 1) && Contraction(cl, s, pos) == None
    ensures LoneNul(cl, s, pos) ==> RunEnd(cl, NewLine, s, RunEnd(cl, Other, s, pos + 1)) > pos + 1
    ensures s[pos] == 0 && Has(cl, Other, s, pos) && !LoneNul(cl, s, pos) ==> RunEnd(cl, NewLine, s, RunEnd(cl, Other, s, pos + 1)) == pos + 1
  {
  }

  /** The end of a contraction, or 0. */
  method FindContraction(cl: Classes, s: seq<int>, pos: nat) returns (e: nat)
    requires pos < |s|
    ensures Contraction(cl, s, pos) == if e > 0 then Some(e) else None
    ensures e > 0 ==> pos < e <= |s|
  {
    if Get(s, pos) == QUOTE && pos + 1 < |s| {
      var next := cl.lower(Get(s, pos + 1));
      if next == 0x73 || next == 0x74 || next == 0x6D || next == 0x64 { return pos + 2; }
      if pos + 2 < |s| {
        var next2 := cl.lower(Get(s, pos + 2));
        if (next == 0x72 && next2 == 0x65) || (next == 0x76 && next2 == 0x65) || (next == 0x6C && next2 == 0x6C) { return pos + 3; }
      }
    }
    e := 0;
  }

  method SkipRun(cl: Classes, a: Atom, s: seq<int>, from: nat) returns (pos: nat)
    requires from <= |s|
    ensures pos == RunEnd(cl, a, s, from)
  {
    pos := from;
    while Has(cl, a, s, pos)
      invariant pos <= |s| && RunEnd(cl, a, s, from) == RunEnd(cl, a, s, pos)
      decreases |s| - pos
    {
      pos := pos + 1;
    }
  }

  /** An optional blank, a run of symbols, and the newlines behind it. */
  method SkipSymbols(cl: Classes, s: seq<int>, start: nat, cpt: int) returns (pos: nat)
    requires cl.Valid() && start < |s| && cpt == s[start]
    requires cpt == BLANK ==> start + 1 == |s| || Has(cl, Other, s, start + 1)
    requires cpt != BLANK ==> Has(cl, Other, s, start)
    ensures cpt == BLANK && start + 1 < |s| ==> pos == RunEnd(cl, NewLine, s, RunEnd(cl, Other, s, start + 2))
    ensures cpt == BLANK && start + 1 == |s| ==> pos == start + 1 == RunEnd(cl, S, s, start + 1) && LastNewLine(cl, s, start) == 0
    ensures cpt != BLANK ==> pos == RunEnd(cl, NewLine, s, RunEnd(cl, Other, s, start + 1))
    ensures start < pos <= |s|
  {
    pos := start;
    if cpt == BLANK { pos := pos + 1; }
    pos := SkipRun(cl, Other, s, pos);
    pos := SkipRun(cl, NewLine, s, pos);
  }

  function SpaceEnd(cl: Classes, s: seq<int>, start: nat): nat
    requires start < |s|
  {
    var e := RunEnd(cl, S, s, start + 1);
    if LastNewLine(cl, s, start) > 0 then LastNewLine(cl, s, start)
    else if e < |s| && e > start + 1 then e - 1
    else e
  }

  /** Whitespace: up to its last newline, else all but the last when more text follows, else all; or one rune. */
  method SkipSpace(cl: Classes, s: seq<int>, start: nat) returns (pos: nat)
    requires cl.Valid() && IsText(s) && start < |s|
    ensures start < pos <= |s|
    ensures !Has(cl, S, s, start) ==> pos == start + 1
    ensures Has(cl, S, s, start) ==> pos == SpaceEnd(cl, s, start)
  {
    pos := start;
    var numWS: nat := 0;
    var lastRN: nat := 0;
    while FlagsAt(cl, s, pos + numWS).whitespace
      invariant pos + numWS <= |s| && lastRN <= |s| && (lastRN > 0 ==> start < lastRN)
      invariant numWS == 0 ==> lastRN == 0
      invariant numWS > 0 ==> Has(cl, S, s, start) && RunEnd(cl, S, s, start + 1) == RunEnd(cl, S, s, pos + numWS)
      invariant LastNewLine(cl, s, start) == if LastNewLine(cl, s, pos + numWS) > 0 then LastNewLine(cl, s, pos + numWS) else lastRN
      decreases |s| - pos - numWS
    {
      var c := Get(s, pos + numWS);
      if c == CR || c == LF {
        lastRN := pos + numWS + 1;
      }
      numWS := numWS + 1;
    }
    if lastRN > 0 { return lastRN; }
    if numWS > 1 && Get(s, pos + numWS) != OUT_OF_RANGE { return pos + numWS - 1; }
    if numWS > 0 { return pos + numWS; }
    pos := pos + 1;
  }

  /** The pieces the pattern finds. */
  ghost function Pieces(cl: Classes, s: seq<int>, pos: nat): seq<seq<int>>
    requires pos <= |s|
    decreases |s| - pos
  {
    match Qwen2Match(cl, s, pos)
    case Some(e) => if e > pos then [s[pos..e]] + Pieces(cl, s, e) else []
    case None => []
  }

  function Join(ps: seq<seq<int>>): seq<int> {
    if ps == [] then [] else ps[0] + Join(ps[1..])
  }

  lemma {:induction false} JoinMore(ps: seq<seq<int>>, p: seq<int>)
    ensures Join(ps + [p]) == Join(ps) + p
  {
    if ps == [] {
      assert [p][1..] == [] && p + [] == p;
      assert ps + [p] == [p];
    } else {
      JoinMore(ps[1..], p);
      TailOfSum(ps, [p]);
      assert ps[0] + (Join(ps[1..]) + p) == ps[0] + Join(ps[1..]) + p;
    }
  }

  /** No piece of the pattern starts at a lone NUL. */
  ghost predicate NoPieceAtNul(cl: Classes, s: seq<int>, pos: nat)
    requires pos <= |s|
    decreases |s| - pos
  {
    match Qwen2Match(cl, s, pos)
    case Some(e) => e > pos ==> !LoneNul(cl, s, pos) && NoPieceAtNul(cl, s, e)
    case None => true
  }

  /** The pieces the loop cuts: the pattern's, but a lone NUL by itself. */
  ghost function CutPieces(cl: Classes, s: seq<int>, pos: nat): seq<seq<int>>
    requires pos <= |s|
    decreases |s| - pos
  {
    if pos < |s| && LoneNul(cl, s, pos) then [s[pos..pos + 1]] + CutPieces(cl, s, pos + 1) else
    match Qwen2Match(cl, s, pos)
    case Some(e) => if e > pos then [s[pos..e]] + CutPieces(cl, s, e) else []
    case None => []
  }

  /** These are the pattern's pieces if and only if none of the pattern's starts at a lone NUL. */
  lemma {:induction false} CutsLikePattern(cl: Classes, s: seq<int>, pos: nat)
    requires cl.Valid() && pos <= |s|
    ensures CutPieces(cl, s, pos) == Pieces(cl, s, pos) <==> NoPieceAtNul(cl, s, pos)
    decreases |s| - pos
  {
    hide Qwen2Match, LoneNul;
    if pos < |s| {
      MatchMoves(cl, s, pos);
      var e := Qwen2Match(cl, s, pos).value;
      if LoneNul(cl, s, pos) {
        assert CutPieces(cl, s, pos)[0] == s[pos..pos + 1] && Pieces(cl, s, pos)[0] == s[pos..e];
        assert |s[pos..pos + 1]| < |s[pos..e]|;
      } else {
        CutsLikePattern(cl, s, e);
        assert CutPieces(cl, s, pos)[1..] == CutPieces(cl, s, e) && Pieces(cl, s, pos)[1..] == Pieces(cl, s, e);
      }
    }
  }

  lemma MatchMoves(cl: Classes, s: seq<int>, pos: nat)
    requires cl.Valid() && pos < |s|
    ensures Qwen2Match(cl, s, pos).Some? && Qwen2Match(cl, s, pos).value > pos
    ensures LoneNul(cl, s, pos) ==> Qwen2Match(cl, s, pos).value > pos + 1
  {
    hide Qwen2Match, Contraction, LastNewLine, LoneNul;
    Qwen2Cases(cl, s, pos);
    NulCases(cl, s, pos);
  }

  /** Non-empty pieces that join to the text, exactly where the pattern and the lone NULs cut it. */
  method PretokenizeRunes(cl: Classes, cpts: seq<int>) returns (out: seq<seq<int>>)
    requires cl.Valid() && IsText(cpts)
    ensures Join(out) == cpts && forall p :: p in out ==> p != []
    ensures out == CutPieces(cl, cpts, 0)
    ensures out == Pieces(cl, cpts, 0) <==> NoPieceAtNul(cl, cpts, 0)
  {
    hide Qwen2Match, LoneNul, Pieces, Join, NoPieceAtNul, CutPieces;
    CutsLikePattern(cl, cpts, 0);
    out := [];
    NothingJoined();
    NoMoreText(cl, cpts);
    var pos := 0;
    while pos < |cpts|
      invariant 0 <= pos <= |cpts| && Join(out) == cpts[..pos] && forall p :: p in out ==> p != []
      invariant CutPieces(cl, cpts, 0) == out + CutPieces(cl, cpts, pos)
    {
      var prevEnd := pos;
      pos := NextPiece(cl, cpts, pos);
      JoinMore(out, cpts[prevEnd..pos]);
      assert cpts[..prevEnd] + cpts[prevEnd..pos] == cpts[..pos];
      NextCut(cl, cpts, prevEnd, pos);
      out := out + [cpts[prevEnd..pos]];
    }
    assert cpts[..|cpts|] == cpts;
  }

  lemma NextCut(cl: Classes, s: seq<int>, from: nat, to: nat)
    requires from < to <= |s|
    requires if LoneNul(cl, s, from) then to == from + 1 else Qwen2Match(cl, s, from) == Some(to)
    ensures CutPieces(cl, s, from) == [s[from..to]] + CutPieces(cl, s, to)
  {
  }

  lemma NothingJoined()
    ensures Join([]) == []
  {
  }

  lemma NoMoreText(cl: Classes, s: seq<int>)
    ensures CutPieces(cl, s, |s|) == []
  {
  }

  /** A no-break space in front of an exclamation mark: one piece to Go's pattern, two to the published one. */
  lemma NoBreakSpaceDiffers(cl: Classes)
    requires cl.Valid() && cl.CoversGo() && cl.space(0xA0)
    requires !cl.letter(0x21) && !cl.number(0x21) && !cl.space(0x21)
    ensures GoMatch(cl, [0xA0, 0x21], 0) == Some(2) && Qwen2Match(cl, [0xA0, 0x21], 0) == Some(1)
  {
    var s := [0xA0, 0x21];
    PlainCases(cl.Go(), s, 0);
    Qwen2Cases(cl, s, 0);
    assert RunEnd(cl.Go(), Other, s, 2) == 2 && RunEnd(cl.Go(), Other, s, 1) == 2 && RunEnd(cl, S, s, 1) == 1;
  }

  /** Two NULs in a row: the pattern takes both, the loop only the first. */
  lemma LoneNulExists(cl: Classes)
    requires cl.Valid() && !cl.letter(0) && !cl.number(0) && !cl.space(0)
    ensures LoneNul(cl, [0, 0], 0) && Qwen2Match(cl, [0, 0], 0) == Some(2)
  {
    var s := [0, 0];
    Qwen2Cases(cl, s, 0);
    assert RunEnd(cl, Other, s, 2) == 2 && RunEnd(cl, Other, s, 1) == 2;
  }
}
