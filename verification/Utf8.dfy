/** Bytes and runes as Go's unicode/utf8 sees them (section 3 of RFC 3629): an invalid byte decodes to U+FFFD, size 1. */
module Utf8 {

  type Byte = b: int | 0 <= b < 256
  type Str = seq<Byte>

  const RUNE_ERROR: int := 0xFFFD

  predicate ValidRune(r: int) {
    0 <= r < 0xD800 || 0xE000 <= r <= 0x10FFFF
  }

  predicate Cont(b: Byte) { 0x80 <= b <= 0xBF }

  /** The second byte of a 3-byte sequence. */
  predicate Second3(b0: Byte, b1: Byte) {
    (if b0 == 0xE0 then 0xA0 else 0x80) <= b1 <= (if b0 == 0xED then 0x9F else 0xBF)
  }

  /** The second byte of a 4-byte sequence. */
  predicate Second4(b0: Byte, b1: Byte) {
    (if b0 == 0xF0 then 0x90 else 0x80) <= b1 <= (if b0 == 0xF4 then 0x8F else 0xBF)
  }

  predicate Two(s: Str) { |s| >= 2 && 0xC2 <= s[0] <= 0xDF && Cont(s[1]) }

  predicate Three(s: Str) { |s| >= 3 && 0xE0 <= s[0] <= 0xEF && Second3(s[0], s[1]) && Cont(s[2]) }

  predicate Four(s: Str) { |s| >= 4 && 0xF0 <= s[0] <= 0xF4 && Second4(s[0], s[1]) && Cont(s[2]) && Cont(s[3]) }

  /** The first rune of a non-empty string. */
  function Rune(s: Str): (r: int)
    requires s != []
    ensures ValidRune(r)
  {
    if s[0] < 0x80 then s[0]
    else if Two(s) then (s[0] - 0xC0) * 0x40 + (s[1] - 0x80)
    else if Three(s) then ((s[0] - 0xE0) * 0x40 + (s[1] - 0x80)) * 0x40 + (s[2] - 0x80)
    else if Four(s) then (((s[0] - 0xF0) * 0x40 + (s[1] - 0x80)) * 0x40 + (s[2] - 0x80)) * 0x40 + (s[3] - 0x80)
    else RUNE_ERROR
  }

  /** Its size in bytes. */
  function Size(s: Str): (n: nat)
    requires s != []
    ensures 1 <= n <= 4 && n <= |s|
  {
    if s[0] < 0x80 then 1 else if Two(s) then 2 else if Three(s) then 3 else if Four(s) then 4 else 1
  }

  predicate WellFormed(s: Str)
    requires s != []
  {
    s[0] < 0x80 || Two(s) || Three(s) || Four(s)
  }

  /** The bytes of a rune; a rune that has none is written as U+FFFD. */
  function Encode(r: int): (s: Str)
    ensures 1 <= |s| <= 4
  {
    if 0 <= r < 0x80 then [r]
    else if 0 <= r < 0x800 then [0xC0 + r / 0x40, 0x80 + r % 0x40]
    else if !ValidRune(r) then [0xEF, 0xBF, 0xBD]
    else if r < 0x10000 then [0xE0 + r / 0x40 / 0x40, 0x80 + r / 0x40 % 0x40, 0x80 + r % 0x40]
    else [0xF0 + r / 0x40 / 0x40 / 0x40, 0x80 + r / 0x40 / 0x40 % 0x40, 0x80 + r / 0x40 % 0x40, 0x80 + r % 0x40]
  }

  lemma DecodeEncode(r: int, rest: Str)
    requires ValidRune(r)
    ensures Rune(Encode(r) + rest) == r && Size(Encode(r) + rest) == |Encode(r)| && WellFormed(Encode(r) + rest)
  {
    if r < 0x80 {
    } else if r < 0x800 {
      Starts([0xC0 + r / 0x40, 0x80 + r % 0x40], rest);
    } else if r < 0x10000 {
      Starts([0xE0 + r / 0x40 / 0x40, 0x80 + r / 0x40 % 0x40, 0x80 + r % 0x40], rest);
    } else {
      Starts([0xF0 + r / 0x40 / 0x40 / 0x40, 0x80 + r / 0x40 / 0x40 % 0x40, 0x80 + r / 0x40 % 0x40, 0x80 + r % 0x40], rest);
    }
  }

  /** Byte strings in the order of the first byte that differs. */
  ghost predicate DifferAt(a: Str, b: Str, k: nat) {
    k < |a| && k < |b| && a[..k] == b[..k] && a[k] < b[k]
  }

  /** Byte order is rune order (section 1 of RFC 3629). Between the valid runes and the well-formed sequences only one pairing
      is like that. */
  lemma EncodeOrdered(r: int, q: int)
    requires ValidRune(r) && ValidRune(q) && r < q
    ensures exists k :: DifferAt(Encode(r), Encode(q), k)
  {
    hide DifferAt;
    if |Encode(r)| < |Encode(q)| || r < 0x80 {
      FirstDiffers(r, q);
    } else {
      SameSizeOrdered(r, q);
    }
  }

  lemma FirstDiffers(r: int, q: int)
    requires ValidRune(r) && ValidRune(q) && r < q && (|Encode(r)| < |Encode(q)| || r < 0x80)
    ensures DifferAt(Encode(r), Encode(q), 0)
  {
  }

  lemma SameSizeOrdered(r: int, q: int)
    requires ValidRune(r) && ValidRune(q) && 0x80 <= r < q && |Encode(r)| == |Encode(q)|
    ensures exists k :: DifferAt(Encode(r), Encode(q), k)
  {
    var a, b := Encode(r), Encode(q);
    var n := |a| - 1;
    if r / 0x40 == q / 0x40 {
      assert DifferAt(a, b, n);
    } else if r / 0x40 / 0x40 == q / 0x40 / 0x40 {
      assert DifferAt(a, b, n - 1);
    } else if n < 3 || r / 0x40 / 0x40 / 0x40 == q / 0x40 / 0x40 / 0x40 {
      assert DifferAt(a, b, n - 2);
    } else {
      assert DifferAt(a, b, 0);
    }
  }

  /** The bytes of an ASCII text. */
  function Ascii(text: string): Str
    requires forall i :: 0 <= i < |text| ==> text[i] as int < 0x80
  {
    seq(|text|, i requires 0 <= i < |text| => var b: Byte := text[i] as int; b)
  }

  /** The first bytes of a concatenation. */
  lemma Starts(a: Str, b: Str)
    ensures forall i :: 0 <= i < |a| ==> (a + b)[i] == a[i]
  {
  }

  /** Two digits to the base 64. */
  lemma Digits(x: int, y: int)
    requires 0 <= y < 0x40
    ensures (x * 0x40 + y) / 0x40 == x && (x * 0x40 + y) % 0x40 == y
  {
  }

  lemma EncodeDecode(s: Str)
    requires s != [] && WellFormed(s)
    ensures Encode(Rune(s)) == s[..Size(s)]
  {
    if s[0] >= 0x80 {
      if Two(s) { EncodeTwo(s); } else if Three(s) { EncodeThree(s); } else { EncodeFour(s); }
    }
  }

  lemma EncodeTwo(s: Str)
    requires s != [] && s[0] >= 0x80 && Two(s)
    ensures Encode(Rune(s)) == s[..Size(s)]
  {
    Digits(s[0] as int - 0xC0, s[1] - 0x80);
  }

  lemma EncodeThree(s: Str)
    requires s != [] && !Two(s) && Three(s)
    ensures Encode(Rune(s)) == s[..Size(s)]
  {
    var x: int := s[0] - 0xE0;
    var y: int := x * 0x40 + (s[1] - 0x80);
    Digits(x, s[1] - 0x80);
    Digits(y, s[2] - 0x80);
    assert Rune(s) == y * 0x40 + (s[2] - 0x80);
  }

  lemma EncodeFour(s: Str)
    requires s != [] && !Two(s) && !Three(s) && Four(s)
    ensures Encode(Rune(s)) == s[..Size(s)]
  {
    var x: int := s[0] - 0xF0;
    var y: int := x * 0x40 + (s[1] - 0x80);
    var z: int := y * 0x40 + (s[2] - 0x80);
    Digits(x, s[1] - 0x80);
    Digits(y, s[2] - 0x80);
    Digits(z, s[3] - 0x80);
    assert Rune(s) == z * 0x40 + (s[3] - 0x80);
  }

  lemma NotWellFormed(s: Str)
    requires s != [] && !WellFormed(s)
    ensures Rune(s) == RUNE_ERROR && Size(s) == 1 && |Encode(Rune(s))| == 3
  {
  }

  /** No rune straddles the cut between a and b: b continues nothing, or a ends in an ASCII byte. */
  predicate Cut(a: Str, b: Str) {
    a == [] || b == [] || !Cont(b[0]) || a[|a| - 1] < 0x80
  }

  /** Bytes behind a cut do not matter. */
  lemma SizeStable(a: Str, b: Str)
    requires a != [] && Cut(a, b)
    ensures Size(a + b) == Size(a) && Rune(a + b) == Rune(a) && WellFormed(a + b) == WellFormed(a)
  {
    var s := a + b;
    if b == [] {
      assert s == a;
    } else if |a| < 4 {
      assert s[|a|] == b[0];
      assert s[|a| - 1] == a[|a| - 1];
    }
  }

  // ---------------------------------------------------------------------------------
  // Strings
  // ---------------------------------------------------------------------------------

  function Runes(s: Str): seq<int> {
    if s == [] then [] else [Rune(s)] + Runes(s[Size(s)..])
  }

  function Write(rs: seq<int>): Str {
    if rs == [] then [] else Encode(rs[0]) + Write(rs[1..])
  }

  /** The string after conversion to runes and back. */
  function Sanitize(s: Str): Str { Write(Runes(s)) }

  predicate Valid(s: Str) {
    s != [] ==> WellFormed(s) && Valid(s[Size(s)..])
  }

  /** Conversion keeps exactly the valid strings; any other gets longer. */
  lemma {:induction false} SanitizeKeepsValid(s: Str)
    ensures Sanitize(s) == s <==> Valid(s)
    ensures Valid(s) || |Sanitize(s)| > |s|
    decreases |s|
  {
    hide Rune, Size, Encode, WellFormed, Sanitize;
    SanitizeStep(s);
    if s != [] {
      var n := Size(s);
      SanitizeKeepsValid(s[n..]);
      if WellFormed(s) {
        EncodeDecode(s);
        SameHead(s, n, Sanitize(s[n..]));
      } else {
        NotWellFormed(s);
      }
    }
  }

  lemma SanitizeStep(s: Str)
    ensures Sanitize(s) == if s == [] then [] else Encode(Rune(s)) + Sanitize(s[Size(s)..])
  {
    hide Rune, Size, Encode;
    if s != [] {
      assert Runes(s)[1..] == Runes(s[Size(s)..]);
    }
  }

  lemma SameHead(s: Str, n: nat, rest: Str)
    requires n <= |s|
    ensures s[..n] + rest == s <==> rest == s[n..]
  {
    assert s == s[..n] + s[n..];
    assert (s[..n] + rest)[n..] == rest;
  }

  lemma TailOfSum<T>(a: seq<T>, b: seq<T>)
    requires a != []
    ensures (a + b)[0] == a[0] && (a + b)[1..] == a[1..] + b
  {
  }

  lemma Regroup(a: Str, b: Str, c: Str)
    ensures a + (b + c) == (a + b) + c
  {
  }

  lemma {:induction false} WriteAppend(a: seq<int>, b: seq<int>)
    ensures Write(a + b) == Write(a) + Write(b)
  {
    hide Encode;
    if a == [] {
      assert a + b == b;
    } else {
      WriteAppend(a[1..], b);
      TailOfSum(a, b);
      Regroup(Encode(a[0]), Write(a[1..]), Write(b));
    }
  }

  lemma {:induction false} RunesAppend(a: Str, b: Str)
    requires Cut(a, b)
    ensures Runes(a + b) == Runes(a) + Runes(b)
    decreases |a|
  {
    hide Rune, Size, Cont;
    if a == [] {
      assert a + b == b;
    } else {
      SizeStable(a, b);
      RunesAppend(a[Size(a)..], b);
      assert (a + b)[Size(a)..] == a[Size(a)..] + b;
    }
  }

  lemma SanitizeAppend(a: Str, b: Str)
    requires Cut(a, b)
    ensures Sanitize(a + b) == Sanitize(a) + Sanitize(b)
  {
    RunesAppend(a, b);
    WriteAppend(Runes(a), Runes(b));
  }

  lemma {:induction false} SanitizeAscii(s: Str)
    requires forall i :: 0 <= i < |s| ==> s[i] < 0x80
    ensures Sanitize(s) == s
  {
    AsciiValid(s);
    SanitizeKeepsValid(s);
  }

  lemma {:induction false} AsciiValid(s: Str)
    requires forall i :: 0 <= i < |s| ==> s[i] < 0x80
    ensures Valid(s)
  {
    if s != [] { AsciiValid(s[1..]); }
  }

  lemma {:induction false} RunesAreValid(s: Str)
    ensures forall i :: 0 <= i < |Runes(s)| ==> ValidRune(Runes(s)[i])
    decreases |s|
  {
    if s != [] { RunesAreValid(s[Size(s)..]); }
  }

  /** A cut where no rune straddles divides a valid string into valid ones. */
  lemma {:induction false} ValidParts(a: Str, b: Str)
    requires Valid(a + b) && Cut(a, b)
    ensures Valid(a) && Valid(b)
    decreases |a|
  {
    hide Rune, Size, Cont, WellFormed;
    if a == [] {
      assert a + b == b;
    } else {
      SizeStable(a, b);
      assert (a + b)[Size(a)..] == a[Size(a)..] + b;
      ValidParts(a[Size(a)..], b);
    }
  }

  /** What follows a valid prefix of a valid string is valid. */
  lemma {:induction false} ValidRest(a: Str, b: Str)
    requires Valid(a + b) && Valid(a)
    ensures Valid(b)
    decreases |a|
  {
    hide Rune, Cont;
    if a == [] {
      assert a + b == b;
    } else {
      SameSize(a, b);
      assert (a + b)[Size(a)..] == a[Size(a)..] + b;
      ValidRest(a[Size(a)..], b);
    }
  }

  lemma SameSize(a: Str, b: Str)
    requires a != [] && WellFormed(a)
    ensures Size(a + b) == Size(a)
  {
    Starts(a, b);
  }

  /** A valid string does not begin inside a rune. */
  lemma ValidStarts(s: Str)
    requires s != [] && Valid(s)
    ensures !Cont(s[0])
  {
  }
}
