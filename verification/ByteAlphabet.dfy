/** The printable alphabet for bytes: 188 bytes stand for themselves, the other 68 for the runes from 256 on. */
module ByteAlphabet {
  import opened Utf8

  predicate Printable(b: Byte) {
    0x21 <= b <= 0x7E || 0xA1 <= b <= 0xAC || 0xAE <= b <= 0xFF
  }

  /** How many bytes below n are not printable. */
  function Gaps(n: nat): (g: nat)
    requires n <= 256
    ensures g <= n
  {
    if n == 0 then 0 else Gaps(n - 1) + if Printable(n - 1) then 0 else 1
  }

  function Letter(b: Byte): int {
    if Printable(b) then b else 256 + Gaps(b)
  }

  lemma {:induction false} GapsGrow(m: nat, n: nat)
    requires m <= n <= 256
    ensures Gaps(m) <= Gaps(n) && Gaps(n) - Gaps(m) <= n - m
  {
    if m < n { GapsGrow(m, n - 1); }
  }

  lemma {:induction false} GapsAre(n: nat)
    requires n <= 256
    ensures Gaps(n) ==
      if n <= 0x21 then n else if n <= 0x7F then 0x21 else if n <= 0xA1 then 0x21 + n - 0x7F else if n <= 0xAD then 0x43 else 0x44
  {
    if n > 0 { GapsAre(n - 1); }
  }

  /** The alphabet in numbers: controls and blank from 0x100 on, delete to no-break space from 0x121 on, the soft hyphen at
      0x143, and everything else itself. */
  lemma LettersAre(b: Byte)
    ensures Letter(b) ==
      if b <= 0x20 then 0x100 + b
      else if 0x7F <= b <= 0xA0 then 0x121 + (b - 0x7F)
      else if b == 0xAD then 0x143
      else b
  {
    hide Gaps;
    GapsAre(b);
  }

  lemma LetterIsRune(b: Byte)
    ensures ValidRune(Letter(b)) && 0x21 <= Letter(b) < 512
  {
  }

  /** Distinct bytes have distinct letters. */
  lemma LetterInjective(a: Byte, b: Byte)
    requires Letter(a) == Letter(b)
    ensures a == b
  {
    hide Gaps;
    if !Printable(a) && !Printable(b) {
      if a < b {
        GapsStep(a);
        GapsGrow(a + 1, b);
      } else if b < a {
        GapsStep(b);
        GapsGrow(b + 1, a);
      }
    }
  }

  lemma GapsStep(b: Byte)
    requires !Printable(b)
    ensures Gaps(b + 1) == Gaps(b) + 1
  {
  }

  function Spell(b: Byte): (s: Str)
    ensures 1 <= |s| <= 4
  {
    Encode(Letter(b))
  }

  lemma EncodeInjective(r: int, q: int)
    requires ValidRune(r) && ValidRune(q) && Encode(r) == Encode(q)
    ensures r == q
  {
    DecodeEncode(r, []);
    DecodeEncode(q, []);
  }

  lemma SpellInjective(a: Byte, b: Byte)
    requires Spell(a) == Spell(b)
    ensures a == b
  {
    hide Letter, Encode;
    LetterIsRune(a);
    LetterIsRune(b);
    EncodeInjective(Letter(a), Letter(b));
    LetterInjective(a, b);
  }

  // ---------------------------------------------------------------------------------
  // The two tables
  // ---------------------------------------------------------------------------------

  /** The bytes in `done` are entered in both directions, and nothing else is. */
  ghost predicate Entered(byteToUnicode: map<Byte, Str>, unicodeToByte: map<Str, Byte>, done: set<Byte>) {
    && byteToUnicode.Keys == done
    && (forall b :: b in done ==> byteToUnicode[b] == Spell(b))
    && (forall b :: b in done ==> Spell(b) in unicodeToByte && unicodeToByte[Spell(b)] == b)
    && (forall s :: s in unicodeToByte ==> unicodeToByte[s] in done && s == Spell(unicodeToByte[s]))
  }

  lemma EnterOne(byteToUnicode: map<Byte, Str>, unicodeToByte: map<Str, Byte>, done: set<Byte>, b: Byte, s: Str)
    requires Entered(byteToUnicode, unicodeToByte, done) && s == Spell(b)
    ensures Entered(byteToUnicode[b := s], unicodeToByte[s := b], done + {b})
  {
    hide Spell;
    forall c | c in done && Spell(c) == s ensures c == b {
      SpellInjective(b, c);
    }
  }

  /** Three printable ranges, then the gaps in order with a running counter. */
  method Init() returns (byteToUnicode: map<Byte, Str>, unicodeToByte: map<Str, Byte>)
    ensures Entered(byteToUnicode, unicodeToByte, Between(0, 256))
  {
    hide Entered, Encode, Spell, Gaps;
    byteToUnicode, unicodeToByte := map[], map[];
    assert Entered(byteToUnicode, unicodeToByte, {}) by { EnteredNone(); }
    byteToUnicode, unicodeToByte := AddRange(byteToUnicode, unicodeToByte, 0x21, 0x7E, {});
    assert {} + Between(0x21, 0x7F) == Between(0x21, 0x7F);
    byteToUnicode, unicodeToByte := AddRange(byteToUnicode, unicodeToByte, 0xA1, 0xAC, Between(0x21, 0x7F));
    byteToUnicode, unicodeToByte := AddRange(byteToUnicode, unicodeToByte, 0xAE, 0xFF, Between(0x21, 0x7F) + Between(0xA1, 0xAD));
    ghost var printable := set b: Byte | Printable(b);
    assert Between(0x21, 0x7F) + Between(0xA1, 0xAD) + Between(0xAE, 0x100) == printable;
    var n := 0;
    assert Gaps(0) == 0 by { NoGaps(); }
    assert printable + Between(0, 0) == printable;
    for ch := 0 to 256
      invariant Entered(byteToUnicode, unicodeToByte, printable + Between(0, ch))
      invariant n == Gaps(ch)
    {
      GapsNext(ch);
      assert printable + Between(0, ch + 1) == printable + Between(0, ch) + {ch};
      assert ch in byteToUnicode <==> Printable(ch) by { EnteredKeys(byteToUnicode, unicodeToByte, printable + Between(0, ch)); }
      if ch !in byteToUnicode {
        EnterOne(byteToUnicode, unicodeToByte, printable + Between(0, ch), ch, Encode(256 + n));
        byteToUnicode, unicodeToByte := byteToUnicode[ch := Encode(256 + n)], unicodeToByte[Encode(256 + n) := ch];
        n := n + 1;
      } else {
        assert printable + Between(0, ch) + {ch} == printable + Between(0, ch);
      }
    }
    assert printable + Between(0, 256) == Between(0, 256);
  }

  ghost predicate InRange(b: Byte, lo: nat, hi: nat) { lo <= b < hi }

  ghost function Between(lo: nat, hi: nat): set<Byte>
    requires hi <= 256
  {
    set b: Byte | InRange(b, lo, hi)
  }

  lemma EnteredNone()
    ensures Entered(map[], map[], {})
  {
  }

  lemma EnteredKeys(byteToUnicode: map<Byte, Str>, unicodeToByte: map<Str, Byte>, done: set<Byte>)
    requires Entered(byteToUnicode, unicodeToByte, done)
    ensures byteToUnicode.Keys == done
  {
  }

  lemma NoGaps()
    ensures Gaps(0) == 0
  {
  }

  lemma GapsNext(b: Byte)
    ensures Gaps(b + 1) == Gaps(b) + if Printable(b) then 0 else 1
    ensures !Printable(b) ==> Spell(b) == Encode(256 + Gaps(b))
    ensures Printable(b) ==> Spell(b) == Encode(b)
  {
  }

  method AddRange(byteToUnicode: map<Byte, Str>, unicodeToByte: map<Str, Byte>, lo: Byte, hi: Byte, ghost done: set<Byte>)
    returns (b2u: map<Byte, Str>, u2b: map<Str, Byte>)
    requires lo <= hi && forall b: Byte :: lo <= b <= hi ==> Printable(b)
    requires Entered(byteToUnicode, unicodeToByte, done)
    ensures Entered(b2u, u2b, done + Between(lo, hi + 1))
  {
    hide Entered, Encode, Spell, Gaps;
    b2u, u2b := byteToUnicode, unicodeToByte;
    assert done + Between(lo, lo) == done;
    for ch := lo to hi + 1
      invariant Entered(b2u, u2b, done + Between(lo, ch))
    {
      GapsNext(ch);
      EnterOne(b2u, u2b, done + Between(lo, ch), ch, Encode(ch));
      assert done + Between(lo, ch) + {ch} == done + Between(lo, ch + 1);
      b2u, u2b := b2u[ch := Encode(ch)], u2b[Encode(ch) := ch];
    }
  }

  // ---------------------------------------------------------------------------------
  // Words and tokens
  // ---------------------------------------------------------------------------------

  /** The spelled-out word. */
  function Spelled(word: Str): Str {
    if word == [] then [] else Spell(word[0]) + Spelled(word[1..])
  }

  /** What decoding makes of a token: letters become bytes, other runes vanish. */
  ghost function Bytes(tok: Str): Str
    decreases |tok|
  {
    if tok == [] then []
    else LetterByte(Rune(tok)) + Bytes(tok[Size(tok)..])
  }

  ghost function LetterByte(r: int): Str {
    if b: Byte :| Letter(b) == r then [b] else []
  }

  lemma LetterByteOf(b: Byte)
    ensures LetterByte(Letter(b)) == [b]
  {
    hide Letter;
    var c: Byte :| Letter(c) == Letter(b) && LetterByte(Letter(b)) == [c];
    LetterInjective(b, c);
  }

  /** Spelling a byte in front of a token puts the byte in front of its decoding. */
  lemma BytesOfSpell(b: Byte, rest: Str)
    ensures Bytes(Spell(b) + rest) == [b] + Bytes(rest)
  {
    hide Letter, Encode, Rune, Size;
    LetterIsRune(b);
    DecodeEncode(Letter(b), rest);
    LetterByteOf(b);
    assert (Spell(b) + rest)[|Spell(b)|..] == rest;
  }

  /** Decoding undoes spelling, in front of anything. */
  lemma {:induction false} BytesOfSpelled(word: Str, rest: Str)
    ensures Bytes(Spelled(word) + rest) == word + Bytes(rest)
  {
    hide Spell, Bytes;
    if word == [] {
      assert Spelled(word) + rest == rest;
    } else {
      BytesOfSpelled(word[1..], rest);
      BytesOfSpell(word[0], Spelled(word[1..]) + rest);
      assert Spelled(word) + rest == Spell(word[0]) + (Spelled(word[1..]) + rest);
    }
  }

  lemma SpelledRoundTrip(word: Str)
    ensures Bytes(Spelled(word)) == word
  {
    BytesOfSpelled(word, []);
    assert Spelled(word) + [] == Spelled(word);
    assert Bytes([]) == [];
  }

  lemma {:induction false} SpelledAppend(a: Str, b: Str)
    ensures Spelled(a + b) == Spelled(a) + Spelled(b)
  {
    hide Spell;
    if a == [] {
      assert a + b == b;
    } else {
      SpelledAppend(a[1..], b);
      TailOfSum(a, b);
      Regroup(Spell(a[0]), Spelled(a[1..]), Spelled(b));
    }
  }

  method ByteEncodeWord(byteToUnicode: map<Byte, Str>, ghost unicodeToByte: map<Str, Byte>, word: Str) returns (s: Str)
    requires Entered(byteToUnicode, unicodeToByte, Between(0, 256))
    ensures s == Spelled(word) && Bytes(s) == word
  {
    hide Spell, Bytes, Spelled;
    s := [];
    SpelledRoundTrip(word);
    assert Spelled([]) == [] by { SpelledNothing(); }
    for i := 0 to |word|
      invariant s == Spelled(word[..i])
    {
      assert InRange(word[i], 0, 256);
      SpelledAppend(word[..i], [word[i]]);
      SpelledOne(word[i]);
      assert word[..i + 1] == word[..i] + [word[i]];
      s := s + byteToUnicode[word[i]];
    }
    assert word[..|word|] == word;
  }

  lemma SpelledNothing()
    ensures Spelled([]) == []
  {
  }

  lemma SpelledOne(b: Byte)
    ensures Spelled([b]) == Spell(b)
  {
    assert [b][1..] == [];
    assert Spell(b) + [] == Spell(b);
  }

  method ByteDecodeToken(ghost byteToUnicode: map<Byte, Str>, unicodeToByte: map<Str, Byte>, tok: Str) returns (out: Str)
    requires Entered(byteToUnicode, unicodeToByte, Between(0, 256))
    ensures out == Bytes(tok)
  {
    out := [];
    hide Spell, Encode, Rune, Size, Letter, LetterByte, Entered;
    var i := 0;
    while i < |tok|
      invariant 0 <= i <= |tok| && out + Bytes(tok[i..]) == Bytes(tok)
    {
      var r, size := Rune(tok[i..]), Size(tok[i..]);
      LookupLetter(byteToUnicode, unicodeToByte, r);
      assert tok[i..][size..] == tok[i + size..];
      if Encode(r) in unicodeToByte {
        out := out + [unicodeToByte[Encode(r)]];
      }
      i := i + size;
    }
  }

  /** Looking up the rune's string finds exactly the byte whose letter it is. */
  lemma LookupLetter(byteToUnicode: map<Byte, Str>, unicodeToByte: map<Str, Byte>, r: int)
    requires Entered(byteToUnicode, unicodeToByte, Between(0, 256)) && ValidRune(r)
    ensures LetterByte(r) == if Encode(r) in unicodeToByte then [unicodeToByte[Encode(r)]] else []
  {
    hide Encode, Letter;
    if Encode(r) in unicodeToByte {
      var b := unicodeToByte[Encode(r)];
      LetterIsRune(b);
      EncodeInjective(Letter(b), r);
      LetterByteOf(b);
    } else {
      forall b: Byte ensures Letter(b) != r {
        assert InRange(b, 0, 256);
        assert b in Between(0, 256);
        assert Spell(b) != Encode(r);
      }
    }
  }

  // ---------------------------------------------------------------------------------
  // Tokens that are their own decoding
  // ---------------------------------------------------------------------------------

  predicate PlainAscii(tok: Str) {
    forall i :: 0 <= i < |tok| ==> 0x21 <= tok[i] <= 0x7E
  }

  /** Decoding keeps a token exactly if all its characters are 0x21..0x7E, and shortens every other one. */
  lemma {:induction false} DecodesToItself(tok: Str)
    ensures PlainAscii(tok) ==> Bytes(tok) == tok
    ensures !PlainAscii(tok) ==> |Bytes(tok)| < |tok|
    decreases |tok|
  {
    hide LetterByte, Rune, Size;
    if tok != [] {
      var n := Size(tok);
      var rest := tok[n..];
      DecodesToItself(rest);
      if 0x21 <= tok[0] <= 0x7E {
        AsciiLetter(tok);
        assert tok == [tok[0]] + rest;
        assert PlainAscii(tok) <==> PlainAscii(rest);
      } else {
        NotItself(tok);
      }
    }
  }

  lemma AsciiLetter(tok: Str)
    requires tok != [] && 0x21 <= tok[0] <= 0x7E
    ensures Size(tok) == 1 && LetterByte(Rune(tok)) == [tok[0]]
  {
    LetterByteOf(tok[0]);
  }

  lemma NotItself(tok: Str)
    requires tok != [] && !(0x21 <= tok[0] <= 0x7E)
    ensures |LetterByte(Rune(tok))| < Size(tok)
  {
    if Size(tok) == 1 {
      forall b: Byte ensures Letter(b) != Rune(tok) { LetterIsRune(b); }
    }
  }
}
