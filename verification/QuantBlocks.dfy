/** The K-quant blocks and their reference dequantisers. A block holds 256 weights. */
module QuantBlocks {
  import opened Offsets
  import opened RealSums
  import opened QuantBits

  const QK_K: nat := 256

  datatype Format = Q2K | Q3K | Q4K | Q5K | Q6K

  /** Bytes of a block in the file. */
  function RawSize(f: Format): (n: nat)
    ensures n > 0
  {
    match f
    case Q2K => 84
    case Q3K => 110
    case Q4K => 144
    case Q5K => 176
    case Q6K => 210
  }

  /** Weights that share a scale come in runs of this length, or lie that far apart. */
  function Lanes(f: Format): (n: nat)
    ensures n > 0
  {
    match f
    case Q2K => 16
    case Q3K => 16
    case _ => 32
  }

  /** binary16 to real: one function for both sides, on every 16-bit pattern. */
  type Half = nat -> real

  // ---------------------------------------------------------------------------------
  // Weight l of group g as the program's bit fields give it, for a block that starts at byte o
  // ---------------------------------------------------------------------------------

  function Scale2(half: Half, s: Data, o: nat, c: nat): (real, real)
    requires o + 84 <= |s| && c < 16
  {
    (Mul(half(Word16(s, o + 80) as nat), U8(Low(s[o + c]))), Mul(half(Word16(s, o + 82) as nat), U8(High(s[o + c]))))
  }

  function Weight2(half: Half, s: Data, o: nat, c: nat, l: nat): real
    requires o + 84 <= |s| && c < 16 && l < 16
  {
    var (dl, ml) := Scale2(half, s, o, c);
    Mul(dl, U8(Crumb(s[o + 16 + 32 * (c / 8) + 16 * (c % 2) + l], 2 * (c / 2 % 4)))) - ml
  }

  function Scale3(half: Half, s: Data, o: nat, c: nat): real
    requires o + 110 <= |s| && c < 16
  {
    Mul(half(Word16(s, o + 108) as nat), (Int8(PackedScale(s, o + 96, c)) - 32) as real)
  }

  /** Two bits minus 4 unless the byte of the high mask has the mask bit. */
  function Three(q: bv8, shift: nat, hm: bv8, m: bv8): real
    requires shift <= 8
  {
    var bit: bv8 := if hm & m == 0 then 4 else 0;
    (Int8(Crumb(q, shift)) - Int8(bit)) as real
  }

  function Weight3(half: Half, s: Data, o: nat, c: nat, l: nat): real
    requires o + 110 <= |s| && c < 16 && l < 16
  {
    Mul(Scale3(half, s, o, c), Three(s[o + 32 + 32 * (c / 8) + 16 * (c % 2) + l], 2 * (c / 2 % 4),
                                     s[o + 16 * (c % 2) + l], Mask(4 * (c / 8) + c / 2 % 4)))
  }

  /** Scale and minimum of Q4_K and Q5_K. */
  function Scale4(half: Half, s: Data, o: nat, g: nat): (real, real)
    requires o + 16 <= |s| && g < 8
  {
    var (sc, m) := ScaleMin(s, o + 4, g);
    (Mul(half(Word16(s, o) as nat), U8(sc)), Mul(half(Word16(s, o + 2) as nat), U8(m)))
  }

  function Weight4(half: Half, s: Data, o: nat, g: nat, l: nat): real
    requires o + 144 <= |s| && g < 8 && l < 32
  {
    var (d, m) := Scale4(half, s, o, g);
    var q := s[o + 16 + 32 * (g / 2) + l];
    Mul(d, U8(if g % 2 == 0 then Low(q) else High(q))) - m
  }

  /** 16 if the byte has the mask bit. */
  function Sixteen(h: bv8, u: bv8): real {
    if h & u != 0 then 16.0 else 0.0
  }

  function Weight5(half: Half, s: Data, o: nat, g: nat, l: nat): real
    requires o + 176 <= |s| && g < 8 && l < 32
  {
    var (d, m) := Scale4(half, s, o, g);
    var q := s[o + 48 + 32 * (g / 2) + l];
    Mul(d, U8(if g % 2 == 0 then Low(q) else High(q)) + Sixteen(s[o + 16 + l], Mask(g))) - m
  }

  function Scale6(half: Half, s: Data, o: nat, j: nat): real
    requires o + 210 <= |s| && j < 16
  {
    Mul(half(Word16(s, o + 208) as nat), Int8(s[o + 192 + j]) as real)
  }

  /** Group g is quarter g % 4 of half g / 4; its two 16-weight halves have scales of their own. */
  function Weight6(half: Half, s: Data, o: nat, g: nat, l: nat): real
    requires o + 210 <= |s| && g < 8 && l < 32
  {
    var n, k := g / 4, g % 4;
    var ql := s[o + 64 * n + 32 * (k % 2) + l];
    var six := SixOf(if k < 2 then Low(ql) else High(ql), Crumb(s[o + 128 + 32 * n + l], 2 * k));
    Mul(Scale6(half, s, o, 8 * n + 2 * k + l / 16), (Int8(six) - 32) as real)
  }

  function Weight(f: Format, half: Half, s: Data, o: nat, g: nat, l: nat): real
    requires o + RawSize(f) <= |s| && Lanes(f) * g + l < QK_K && l < Lanes(f)
  {
    match f
    case Q2K => Weight2(half, s, o, g, l)
    case Q3K => Weight3(half, s, o, g, l)
    case Q4K => Weight4(half, s, o, g, l)
    case Q5K => Weight5(half, s, o, g, l)
    case Q6K => Weight6(half, s, o, g, l)
  }

  // ---------------------------------------------------------------------------------
  // The meaning of a block, in numbers: bytes, quotients and remainders
  // ---------------------------------------------------------------------------------

  function Number(b: bv8): nat { b as int }

  /** A stored binary16, low byte first. */
  function Stored(half: Half, s: Data, at: nat): real
    requires at + 2 <= |s|
  {
    half(Number(s[at]) + 256 * Number(s[at + 1]))
  }

  /** A signed byte. */
  function Signed(b: bv8): int { (Number(b) + 128) % 256 - 128 }

  /** Six-bit scale and minimum of group g of Q4_K and Q5_K, in the twelve bytes from `at` on. */
  function ScaleNumber(s: Data, at: nat, g: nat): nat
    requires at + 12 <= |s| && g < 8
  {
    if g < 4 then Number(s[at + g]) % 64 else Number(s[at + g + 4]) % 16 + 16 * (Number(s[at + g - 4]) / 64)
  }

  function MinNumber(s: Data, at: nat, g: nat): nat
    requires at + 12 <= |s| && g < 8
  {
    if g < 4 then Number(s[at + g + 4]) % 64 else Number(s[at + g + 4]) / 16 + 16 * (Number(s[at + g]) / 64)
  }

  /** Scale c of Q3_K before 32 is taken off. */
  function PackedNumber(s: Data, at: nat, c: nat): nat
    requires at + 12 <= |s| && c < 16
  {
    (if c < 8 then Number(s[at + c]) % 16 else Number(s[at + c - 8]) / 16) + 16 * (Number(s[at + 8 + c % 4]) / Four(c / 4) % 4)
  }

  /** The value of cell y of a block. Q2_K and Q3_K have a scale for 16 cells and take bit pairs 128 cells at a time; Q4_K and Q5_K
      have a scale for 32 and take nibbles 64 cells at a time; Q6_K has a scale for 16 and takes a nibble and a bit pair. */
  function Value(f: Format, half: Half, s: Data, o: nat, y: nat): real
    requires o + RawSize(f) <= |s| && y < 256
  {
    match f
    case Q2K =>
      var pair := Number(s[o + 16 + 32 * (y / 128) + y % 32]) / Four(y / 32 % 4) % 4;
      Mul(Mul(Stored(half, s, o + 80), (Number(s[o + y / 16]) % 16) as real), pair as real)
        - Mul(Stored(half, s, o + 82), (Number(s[o + y / 16]) / 16) as real)
    case Q3K =>
      var pair := Number(s[o + 32 + 32 * (y / 128) + y % 32]) / Four(y / 32 % 4) % 4;
      var bit := Number(s[o + y % 32]) / Two(y / 32) % 2;
      Mul(Mul(Stored(half, s, o + 108), (PackedNumber(s, o + 96, y / 16) - 32) as real), (pair - 4 * (1 - bit)) as real)
    case Q4K =>
      var byte := Number(s[o + 16 + 32 * (y / 64) + y % 32]);
      var nibble := if y / 32 % 2 == 0 then byte % 16 else byte / 16;
      Mul(Mul(Stored(half, s, o), ScaleNumber(s, o + 4, y / 32) as real), nibble as real)
        - Mul(Stored(half, s, o + 2), MinNumber(s, o + 4, y / 32) as real)
    case Q5K =>
      var byte := Number(s[o + 48 + 32 * (y / 64) + y % 32]);
      var nibble := if y / 32 % 2 == 0 then byte % 16 else byte / 16;
      var bit := Number(s[o + 16 + y % 32]) / Two(y / 32) % 2;
      Mul(Mul(Stored(half, s, o), ScaleNumber(s, o + 4, y / 32) as real), (nibble + 16 * bit) as real)
        - Mul(Stored(half, s, o + 2), MinNumber(s, o + 4, y / 32) as real)
    case Q6K =>
      var byte := Number(s[o + 64 * (y / 128) + y % 64]);
      var nibble := if y / 64 % 2 == 0 then byte % 16 else byte / 16;
      var pair := Number(s[o + 128 + 32 * (y / 128) + y % 32]) / Four(y / 32 % 4) % 4;
      Mul(Mul(Stored(half, s, o + 208), Signed(s[o + 192 + y / 16]) as real), (nibble + 16 * pair - 32) as real)
  }

  /** The weights of a block in order. */
  function Block(f: Format, half: Half, s: Data, o: nat): (w: seq<real>)
    requires o + RawSize(f) <= |s|
    ensures |w| == QK_K
  {
    seq(QK_K, y requires 0 <= y < QK_K => Value(f, half, s, o, y))
  }

  // ---------------------------------------------------------------------------------
  // The bit fields give those numbers
  // ---------------------------------------------------------------------------------

  lemma StoredWord(half: Half, s: Data, at: nat)
    requires at + 2 <= |s|
    ensures Stored(half, s, at) == half(Word16(s, at) as nat)
  {
    WordIs(s, at);
  }

  lemma Unsigned(b: bv8, n: nat)
    requires b as int == n
    ensures U8(b) == n as real
  {
  }

  lemma IsSigned(b: bv8)
    ensures Int8(b) == Signed(b)
  {
  }

  /** Groups of 16: cell y lies in chunk y / 128, and there in run y / 32 % 4 of 32 cells. */
  lemma Place16(y: nat)
    requires y < 256
    ensures var c, l := y / 16, y % 16;
      c < 16 && c / 8 == y / 128 && 16 * (c % 2) + l == y % 32 && c / 2 % 4 == y / 32 % 4 && 4 * (c / 8) + c / 2 % 4 == y / 32
  {
  }

  lemma Scale2Is(half: Half, s: Data, o: nat, c: nat)
    requires o + 84 <= |s| && c < 16
    ensures Scale2(half, s, o, c).0 == Mul(Stored(half, s, o + 80), (Number(s[o + c]) % 16) as real)
    ensures Scale2(half, s, o, c).1 == Mul(Stored(half, s, o + 82), (Number(s[o + c]) / 16) as real)
  {
    hide Word16, Low, High, U8, Stored, Mul;
    StoredWord(half, s, o + 80);
    StoredWord(half, s, o + 82);
    NibblesAre(s[o + c]);
    Unsigned(Low(s[o + c]), Number(s[o + c]) % 16);
    Unsigned(High(s[o + c]), Number(s[o + c]) / 16);
  }

  lemma PairIs(q: bv8, k: nat)
    requires k < 4
    ensures U8(Crumb(q, 2 * k)) == (Number(q) / Four(k) % 4) as real
  {
    hide Crumb, U8, Four;
    CrumbIs(q, k);
    Unsigned(Crumb(q, 2 * k), Number(q) / Four(k) % 4);
  }

  lemma Value2(half: Half, s: Data, o: nat, y: nat)
    requires o + 84 <= |s| && y < 256
    ensures Weight2(half, s, o, y / 16, y % 16) == Value(Q2K, half, s, o, y)
  {
    hide Crumb, U8, Stored, Four, Mul, Scale2, Number;
    Place16(y);
    Scale2Is(half, s, o, y / 16);
    PairIs(s[o + 16 + 32 * (y / 128) + y % 32], y / 32 % 4);
  }

  lemma Value3(half: Half, s: Data, o: nat, y: nat)
    requires o + 110 <= |s| && y < 256
    ensures Weight3(half, s, o, y / 16, y % 16) == Value(Q3K, half, s, o, y)
  {
    hide Word16, Crumb, Stored, Four, Two, Mask, Mul, PackedScale, Int8, Three;
    Place16(y);
    var q, h, k := s[o + 32 + 32 * (y / 128) + y % 32], s[o + y % 32], y / 32 % 4;
    StoredWord(half, s, o + 108);
    PackedSigned(s, o + 96, y / 16);
    ThreeIs(q, k, h, y / 32);
  }

  lemma PackedSigned(s: Data, at: nat, c: nat)
    requires at + 12 <= |s| && c < 16
    ensures Int8(PackedScale(s, at, c)) == PackedNumber(s, at, c) as int
  {
    hide PackedScale, Four;
    PackedIs(s, at, c);
    SmallSigned(PackedScale(s, at, c));
  }

  lemma SmallSigned(b: bv8)
    ensures b as int < 128 ==> Int8(b) == b as int
  {
  }

  /** Two bits, and 4 less where the high mask lacks the bit. */
  lemma ThreeIs(q: bv8, k: nat, h: bv8, bit: nat)
    requires k < 4 && bit < 8
    ensures Three(q, 2 * k, h, Mask(bit)) == ((Number(q) / Four(k) % 4) - 4 * (1 - Number(h) / Two(bit) % 2)) as real
  {
    hide Crumb, Four, Two, Mask, Int8;
    CrumbIs(q, k);
    MaskIs(h, bit);
    SmallSigned(Crumb(q, 2 * k));
    FourSigned();
  }

  lemma FourSigned()
    ensures Int8(0) == 0 && Int8(4) == 4
  {
  }

  lemma Place32(y: nat)
    requires y < 256
    ensures y / 32 < 8 && y / 32 / 2 == y / 64 && y / 32 / 4 == y / 128 && y / 32 % 4 < 4
    ensures 32 * (y / 32 % 4 % 2) + y % 32 == y % 64 && (y / 32 % 4 < 2 <==> y / 64 % 2 == 0)
    ensures 8 * (y / 32 / 4) + 2 * (y / 32 % 4) + y % 32 / 16 == y / 16
  {
  }

  lemma Scale4Is(half: Half, s: Data, o: nat, g: nat)
    requires o + 16 <= |s| && g < 8
    ensures Scale4(half, s, o, g).0 == Mul(Stored(half, s, o), ScaleNumber(s, o + 4, g) as real)
    ensures Scale4(half, s, o, g).1 == Mul(Stored(half, s, o + 2), MinNumber(s, o + 4, g) as real)
  {
    hide Word16, U8, Stored, Mul, ScaleMin;
    StoredWord(half, s, o);
    StoredWord(half, s, o + 2);
    ScaleMinIs(s, o + 4, g);
    var (sc, m) := ScaleMin(s, o + 4, g);
    Unsigned(sc, ScaleNumber(s, o + 4, g));
    Unsigned(m, MinNumber(s, o + 4, g));
  }

  lemma NibbleIs(q: bv8, low: bool)
    ensures U8(if low then Low(q) else High(q)) == (if low then Number(q) % 16 else Number(q) / 16) as real
  {
    hide Low, High, U8;
    NibblesAre(q);
    Unsigned(if low then Low(q) else High(q), if low then Number(q) % 16 else Number(q) / 16);
  }

  lemma Value4(half: Half, s: Data, o: nat, y: nat)
    requires o + 144 <= |s| && y < 256
    ensures Weight4(half, s, o, y / 32, y % 32) == Value(Q4K, half, s, o, y)
  {
    hide Low, High, U8, Stored, Mul, Scale4, ScaleNumber, MinNumber;
    Place32(y);
    Scale4Is(half, s, o, y / 32);
    NibbleIs(s[o + 16 + 32 * (y / 64) + y % 32], y / 32 % 2 == 0);
  }

  lemma SixteenIs(h: bv8, bit: nat)
    requires bit < 8
    ensures Sixteen(h, Mask(bit)) == (16 * (Number(h) / Two(bit) % 2)) as real
  {
    hide Two, Mask;
    MaskIs(h, bit);
  }

  lemma Value5(half: Half, s: Data, o: nat, y: nat)
    requires o + 176 <= |s| && y < 256
    ensures Weight5(half, s, o, y / 32, y % 32) == Value(Q5K, half, s, o, y)
  {
    hide Low, High, U8, Stored, Mul, Scale4, ScaleNumber, MinNumber, Sixteen, Mask, Two;
    Place32(y);
    Scale4Is(half, s, o, y / 32);
    NibbleIs(s[o + 48 + 32 * (y / 64) + y % 32], y / 32 % 2 == 0);
    SixteenIs(s[o + 16 + y % 32], y / 32);
  }

  lemma SixSigned(q: bv8, low: bool, h: bv8, k: nat)
    requires k < 4
    ensures Int8(SixOf(if low then Low(q) else High(q), Crumb(h, 2 * k))) ==
      (if low then Number(q) % 16 else Number(q) / 16) + 16 * (Number(h) / Four(k) % 4)
  {
    hide Low, High, Crumb, Four, SixOf;
    NibblesAre(q);
    NibbleSmall(q);
    CrumbIs(h, k);
    CrumbSmall(h, 2 * k);
    SixIs(if low then Low(q) else High(q), Crumb(h, 2 * k));
    SmallSigned(SixOf(if low then Low(q) else High(q), Crumb(h, 2 * k)));
  }

  lemma Value6(half: Half, s: Data, o: nat, y: nat)
    requires o + 210 <= |s| && y < 256
    ensures Weight6(half, s, o, y / 32, y % 32) == Value(Q6K, half, s, o, y)
  {
    hide Word16, Low, High, Crumb, SixOf, Int8, Stored, Mul, Four, Signed;
    Place32(y);
    StoredWord(half, s, o + 208);
    IsSigned(s[o + 192 + y / 16]);
    SixSigned(s[o + 64 * (y / 128) + y % 64], y / 64 % 2 == 0, s[o + 128 + 32 * (y / 128) + y % 32], y / 32 % 4);
  }

  /** Cell l of group g holds the weight that the bit fields give. */
  lemma BlockAt(f: Format, half: Half, s: Data, o: nat, g: nat, l: nat)
    requires o + RawSize(f) <= |s| && Lanes(f) * g + l < QK_K && l < Lanes(f)
    ensures Block(f, half, s, o)[Lanes(f) * g + l] == Weight(f, half, s, o, g, l)
  {
    hide Value, Weight2, Weight3, Weight4, Weight5, Weight6;
    var y := Lanes(f) * g + l;
    assert y / Lanes(f) == g && y % Lanes(f) == l;
    match f {
      case Q2K => Value2(half, s, o, y);
      case Q3K => Value3(half, s, o, y);
      case Q4K => Value4(half, s, o, y);
      case Q5K => Value5(half, s, o, y);
      case Q6K => Value6(half, s, o, y);
    }
  }

  // ---------------------------------------------------------------------------------
  // The reference loops
  // ---------------------------------------------------------------------------------

  /** The first y of 256 cells hold the block's weights. */
  ghost predicate Filled(f: Format, half: Half, s: Data, o: nat, out: seq<real>, y: nat)
    requires o + RawSize(f) <= |s|
  {
    y <= |out| == QK_K && out[..y] == Block(f, half, s, o)[..y]
  }

  lemma FillOne(f: Format, half: Half, s: Data, o: nat, out: seq<real>, g: nat, l: nat, x: real)
    requires o + RawSize(f) <= |s| && Lanes(f) * g + l < QK_K && l < Lanes(f)
    requires Filled(f, half, s, o, out, Lanes(f) * g + l) && x == Weight(f, half, s, o, g, l)
    ensures Filled(f, half, s, o, out[Lanes(f) * g + l := x], Lanes(f) * g + l + 1)
  {
    hide Weight, Block;
    BlockAt(f, half, s, o, g, l);
    var y := Lanes(f) * g + l;
    var b := Block(f, half, s, o);
    assert out[y := x][..y + 1] == out[..y] + [x];
    assert b[..y + 1] == b[..y] + [b[y]];
  }

  /** Writes the next weight. */
  method Put(f: Format, half: Half, s: Data, o: nat, out: array<real>, g: nat, l: nat, x: real)
    requires o + RawSize(f) <= |s| && Lanes(f) * g + l < QK_K && l < Lanes(f) && out.Length == QK_K
    requires Filled(f, half, s, o, out[..], Lanes(f) * g + l) && x == Weight(f, half, s, o, g, l)
    modifies out
    ensures Filled(f, half, s, o, out[..], Lanes(f) * g + l + 1)
  {
    hide Weight, Filled;
    FillOne(f, half, s, o, out[..], g, l, x);
    ghost var was := out[..];
    out[Lanes(f) * g + l] := x;
    assert out[..] == was[Lanes(f) * g + l := x];
  }

  method NewBlock(f: Format, half: Half, s: Data, o: nat) returns (out: array<real>)
    requires o + RawSize(f) <= |s|
    ensures fresh(out) && out.Length == QK_K && Filled(f, half, s, o, out[..], 0)
  {
    out := new real[QK_K];
  }

  // Q4_K

  lemma Pair4(half: Half, s: Data, o: nat, j: nat, l: nat)
    requires o + 144 <= |s| && j < 4 && l < 32
    ensures var (d1, m1) := Scale4(half, s, o, 2 * j); var (d2, m2) := Scale4(half, s, o, 2 * j + 1);
      && Weight4(half, s, o, 2 * j, l) == Mul(d1, U8(Low(s[o + 16 + 32 * j + l]))) - m1
      && Weight4(half, s, o, 2 * j + 1, l) == Mul(d2, U8(High(s[o + 16 + 32 * j + l]))) - m2
  {
    hide Mul, Scale4, U8, Low, High;
  }

  method DequantBlockQ4_K(half: Half, s: Data, o: nat) returns (out: array<real>)
    requires o + 144 <= |s|
    ensures fresh(out) && out.Length == QK_K && Filled(Q4K, half, s, o, out[..], QK_K)
  {
    hide Mul, Block, Filled, Weight4, Word16, U8, Low, High, ScaleMin;
    var d, dmin := half(Word16(s, o) as nat), half(Word16(s, o + 2) as nat);
    var q := o + 16;
    out := NewBlock(Q4K, half, s, o);
    var sub := 0;
    for j := 0 to 4
      invariant sub == 2 * j && q == o + 16 + 32 * j && Filled(Q4K, half, s, o, out[..], 64 * j)
    {
      var (sc, m) := ScaleMin(s, o + 4, sub);
      var d1, m1 := Mul(d, U8(sc)), Mul(dmin, U8(m));
      var (sc', m') := ScaleMin(s, o + 4, sub + 1);
      var d2, m2 := Mul(d, U8(sc')), Mul(dmin, U8(m'));
      for l := 0 to 32
        invariant Filled(Q4K, half, s, o, out[..], 64 * j + l)
      {
        Pair4(half, s, o, j, l);
        Put(Q4K, half, s, o, out, 2 * j, l, Mul(d1, U8(Low(s[q + l]))) - m1);
      }
      for l := 0 to 32
        invariant Filled(Q4K, half, s, o, out[..], 64 * j + 32 + l)
      {
        Pair4(half, s, o, j, l);
        Put(Q4K, half, s, o, out, 2 * j + 1, l, Mul(d2, U8(High(s[q + l]))) - m2);
      }
      q := q + 32;
      sub := sub + 2;
    }
  }

  // Q5_K

  lemma Pair5(half: Half, s: Data, o: nat, j: nat, l: nat)
    requires o + 176 <= |s| && j < 4 && l < 32
    ensures var (d1, m1) := Scale4(half, s, o, 2 * j); var (d2, m2) := Scale4(half, s, o, 2 * j + 1);
      && Weight5(half, s, o, 2 * j, l) == Mul(d1, U8(Low(s[o + 48 + 32 * j + l])) + Sixteen(s[o + 16 + l], Mask(2 * j))) - m1
      && Weight5(half, s, o, 2 * j + 1, l) == Mul(d2, U8(High(s[o + 48 + 32 * j + l])) + Sixteen(s[o + 16 + l], Mask(2 * j + 1))) - m2
  {
    hide Mul, Scale4, U8, Low, High, Mask, Sixteen;
  }

  method DequantBlockQ5_K(half: Half, s: Data, o: nat) returns (out: array<real>)
    requires o + 176 <= |s|
    ensures fresh(out) && out.Length == QK_K && Filled(Q5K, half, s, o, out[..], QK_K)
  {
    hide Mul, Block, Filled, Weight5, Word16, U8, Low, High, ScaleMin, Sixteen, Mask;
    var d, dmin := half(Word16(s, o) as nat), half(Word16(s, o + 2) as nat);
    var qh, ql := o + 16, o + 48;
    out := NewBlock(Q5K, half, s, o);
    var sub := 0;
    var u1: bv8, u2: bv8 := 1, 2;
    FirstMasks();
    for j := 0 to 4
      invariant sub == 2 * j && ql == o + 48 + 32 * j && Filled(Q5K, half, s, o, out[..], 64 * j)
      invariant j < 4 ==> u1 == Mask(2 * j) && u2 == Mask(2 * j + 1)
    {
      var (sc, m) := ScaleMin(s, o + 4, sub);
      var d1, m1 := Mul(d, U8(sc)), Mul(dmin, U8(m));
      var (sc', m') := ScaleMin(s, o + 4, sub + 1);
      var d2, m2 := Mul(d, U8(sc')), Mul(dmin, U8(m'));
      for l := 0 to 32
        invariant Filled(Q5K, half, s, o, out[..], 64 * j + l)
      {
        Pair5(half, s, o, j, l);
        Put(Q5K, half, s, o, out, 2 * j, l, Mul(d1, U8(Low(s[ql + l])) + Sixteen(s[qh + l], u1)) - m1);
      }
      for l := 0 to 32
        invariant Filled(Q5K, half, s, o, out[..], 64 * j + 32 + l)
      {
        Pair5(half, s, o, j, l);
        Put(Q5K, half, s, o, out, 2 * j + 1, l, Mul(d2, U8(High(s[ql + l])) + Sixteen(s[qh + l], u2)) - m2);
      }
      ql := ql + 32;
      sub := sub + 2;
      MaskShift(2 * j);
      MaskShift(2 * j + 1);
      u1 := u1 << 2;
      u2 := u2 << 2;
    }
  }

  lemma FirstMasks()
    ensures Mask(0) == 1 && Mask(1) == 2
  {
  }

  // Q2_K

  lemma Pair2(half: Half, s: Data, o: nat, n: nat, k: nat, l: nat)
    requires o + 84 <= |s| && n < 2 && k < 4 && l < 16
    ensures var c := 8 * n + 2 * k; var (dl, ml) := Scale2(half, s, o, c); var (dl', ml') := Scale2(half, s, o, c + 1);
      && Weight2(half, s, o, c, l) == Mul(dl, U8(Crumb(s[o + 16 + 32 * n + l], 2 * k))) - ml
      && Weight2(half, s, o, c + 1, l) == Mul(dl', U8(Crumb(s[o + 16 + 32 * n + l + 16], 2 * k))) - ml'
  {
    hide Mul, Scale2, U8, Crumb;
    var c := 8 * n + 2 * k;
    assert c / 8 == n && (c + 1) / 8 == n && c % 2 == 0 && (c + 1) % 2 == 1;
    assert c / 2 == 4 * n + k && (c + 1) / 2 == 4 * n + k && (4 * n + k) % 4 == k;
  }

  method DequantBlockQ2_K(half: Half, s: Data, o: nat) returns (out: array<real>)
    requires o + 84 <= |s|
    ensures fresh(out) && out.Length == QK_K && Filled(Q2K, half, s, o, out[..], QK_K)
  {
    hide Mul, Block, Filled, Weight2, Word16, U8, Low, High, Crumb;
    var q := o + 16;
    var d, dmin := half(Word16(s, o + 80) as nat), half(Word16(s, o + 82) as nat);
    out := NewBlock(Q2K, half, s, o);
    var sub := 0;
    for n := 0 to 2
      invariant sub == 8 * n && q == o + 16 + 32 * n && Filled(Q2K, half, s, o, out[..], 128 * n)
    {
      var shift := 0;
      for k := 0 to 4
        invariant sub == 8 * n + 2 * k && shift == 2 * k && Filled(Q2K, half, s, o, out[..], 128 * n + 32 * k)
      {
        var sc := s[o + sub];
        sub := sub + 1;
        var dl, ml := Mul(d, U8(Low(sc))), Mul(dmin, U8(High(sc)));
        for l := 0 to 16
          invariant Filled(Q2K, half, s, o, out[..], 128 * n + 32 * k + l)
        {
          Pair2(half, s, o, n, k, l);
          Put(Q2K, half, s, o, out, 8 * n + 2 * k, l, Mul(dl, U8(Crumb(s[q + l], shift))) - ml);
        }
        sc := s[o + sub];
        sub := sub + 1;
        dl, ml := Mul(d, U8(Low(sc))), Mul(dmin, U8(High(sc)));
        for l := 0 to 16
          invariant Filled(Q2K, half, s, o, out[..], 128 * n + 32 * k + 16 + l)
        {
          Pair2(half, s, o, n, k, l);
          Put(Q2K, half, s, o, out, 8 * n + 2 * k + 1, l, Mul(dl, U8(Crumb(s[q + l + 16], shift))) - ml);
        }
        shift := shift + 2;
      }
      q := q + 32;
    }
  }

  // Q3_K

  lemma Pair3(half: Half, s: Data, o: nat, n: nat, k: nat, l: nat)
    requires o + 110 <= |s| && n < 2 && k < 4 && l < 16
    ensures var c := 8 * n + 2 * k;
      && Weight3(half, s, o, c, l) == Mul(Scale3(half, s, o, c), Three(s[o + 32 + 32 * n + l], 2 * k, s[o + l], Mask(4 * n + k)))
      && Weight3(half, s, o, c + 1, l) ==
        Mul(Scale3(half, s, o, c + 1), Three(s[o + 32 + 32 * n + l + 16], 2 * k, s[o + l + 16], Mask(4 * n + k)))
  {
    hide Mul, Scale3, Three, Mask;
    var c := 8 * n + 2 * k;
    assert c / 8 == n && (c + 1) / 8 == n && c % 2 == 0 && (c + 1) % 2 == 1;
    assert c / 2 == 4 * n + k && (c + 1) / 2 == 4 * n + k && (4 * n + k) % 4 == k;
  }

  method DequantBlockQ3_K(half: Half, s: Data, o: nat) returns (out: array<real>)
    requires o + 110 <= |s|
    ensures fresh(out) && out.Length == QK_K && Filled(Q3K, half, s, o, out[..], QK_K)
  {
    hide Mul, Block, Filled, Weight3, Word16, Three, Crumb, Int8, PackedScale, Mask;
    var q := o + 32;
    var dAll := half(Word16(s, o + 108) as nat);
    var scales := UnpackQ3KScales(s, o + 96);
    out := NewBlock(Q3K, half, s, o);
    var sub := 0;
    var m: bv8 := 1;
    FirstMasks();
    for n := 0 to 2
      invariant sub == 8 * n && q == o + 32 + 32 * n && Filled(Q3K, half, s, o, out[..], 128 * n) && m == Mask(4 * n)
    {
      var shift := 0;
      for k := 0 to 4
        invariant sub == 8 * n + 2 * k && shift == 2 * k && Filled(Q3K, half, s, o, out[..], 128 * n + 32 * k) && m == Mask(4 * n + k)
      {
        var dl := Mul(dAll, (scales[sub] - 32) as real);
        sub := sub + 1;
        for l := 0 to 16
          invariant Filled(Q3K, half, s, o, out[..], 128 * n + 32 * k + l)
        {
          Pair3(half, s, o, n, k, l);
          Put(Q3K, half, s, o, out, 8 * n + 2 * k, l, Mul(dl, Three(s[q + l], shift, s[o + l], m)));
        }
        dl := Mul(dAll, (scales[sub] - 32) as real);
        sub := sub + 1;
        for l := 0 to 16
          invariant Filled(Q3K, half, s, o, out[..], 128 * n + 32 * k + 16 + l)
        {
          Pair3(half, s, o, n, k, l);
          Put(Q3K, half, s, o, out, 8 * n + 2 * k + 1, l, Mul(dl, Three(s[q + l + 16], shift, s[o + l + 16], m)));
        }
        shift := shift + 2;
        MaskShift(4 * n + k);
        m := m << 1;
      }
      q := q + 32;
    }
  }

  // Q6_K

  /** A quarter of a half block at lane l: six bits from two bytes. */
  lemma Quarter6(half: Half, s: Data, o: nat, n: nat, l: nat)
    requires o + 210 <= |s| && n < 2 && l < 32
    ensures var h, a, b, j := s[o + 128 + 32 * n + l], s[o + 64 * n + l], s[o + 64 * n + l + 32], 8 * n + l / 16;
      && Weight6(half, s, o, 4 * n, l) == Mul(Scale6(half, s, o, j), (Int8(SixOf(Low(a), Crumb(h, 0))) - 32) as real)
      && Weight6(half, s, o, 4 * n + 1, l) == Mul(Scale6(half, s, o, j + 2), (Int8(SixOf(Low(b), Crumb(h, 2))) - 32) as real)
      && Weight6(half, s, o, 4 * n + 2, l) == Mul(Scale6(half, s, o, j + 4), (Int8(SixOf(High(a), Crumb(h, 4))) - 32) as real)
      && Weight6(half, s, o, 4 * n + 3, l) == Mul(Scale6(half, s, o, j + 6), (Int8(SixOf(High(b), Crumb(h, 6))) - 32) as real)
  {
    hide Mul, Scale6, SixOf, Low, High, Crumb, Int8;
    assert (4 * n + 1) / 4 == n && (4 * n + 2) / 4 == n && (4 * n + 3) / 4 == n;
  }

  /** Four weights of one lane, 32 apart. */
  ghost predicate Lane6(half: Half, s: Data, o: nat, out: seq<real>, n: nat, l: nat)
    requires o + 210 <= |s| && n < 2 && l < 32
  {
    |out| == QK_K && forall k :: 0 <= k < 4 ==> out[128 * n + 32 * k + l] == Weight6(half, s, o, 4 * n + k, l)
  }

  lemma AllLanes(half: Half, s: Data, o: nat, out: seq<real>)
    requires o + 210 <= |s| && |out| == QK_K
    requires forall n, l :: 0 <= n < 2 && 0 <= l < 32 ==> Lane6(half, s, o, out, n, l)
    ensures Filled(Q6K, half, s, o, out, QK_K)
  {
    hide Weight6, Value;
    var b := Block(Q6K, half, s, o);
    forall y | 0 <= y < QK_K ensures out[y] == b[y] {
      var g, l := y / 32, y % 32;
      BlockAt(Q6K, half, s, o, g, l);
      assert Lane6(half, s, o, out, g / 4, l);
      assert out[128 * (g / 4) + 32 * (g % 4) + l] == Weight6(half, s, o, 4 * (g / 4) + g % 4, l);
    }
    assert out == b;
  }

  /** One round of the inner loop. */
  method PutLane6(half: Half, s: Data, o: nat, out: array<real>, n: nat, l: nat, y: nat, qlOff: nat, qhOff: nat, scOff: nat, d: real)
    requires o + 210 <= |s| && n < 2 && l < 32 && out.Length == QK_K && d == half(Word16(s, o + 208) as nat)
    requires y == 128 * n && qlOff == o + 64 * n && qhOff == o + 128 + 32 * n && scOff == o + 192 + 8 * n
    modifies out
    ensures Lane6(half, s, o, out[..], n, l)
    ensures forall n', l' :: 0 <= n' < 2 && 0 <= l' < 32 && (n' != n || l' != l) && Lane6(half, s, o, old(out[..]), n', l') ==>
      Lane6(half, s, o, out[..], n', l')
  {
    hide Mul, Weight6, Word16, Low, High, SixOf, Crumb, Int8, Lane6;
    var j := l / 16;
    Quarter6(half, s, o, n, l);
    var q1 := Int8(SixOf(Low(s[qlOff + l]), Crumb(s[qhOff + l], 0))) - 32;
    var q2 := Int8(SixOf(Low(s[qlOff + l + 32]), Crumb(s[qhOff + l], 2))) - 32;
    var q3 := Int8(SixOf(High(s[qlOff + l]), Crumb(s[qhOff + l], 4))) - 32;
    var q4 := Int8(SixOf(High(s[qlOff + l + 32]), Crumb(s[qhOff + l], 6))) - 32;
    ghost var was := out[..];
    out[y + l] := Mul(Mul(d, Int8(s[scOff + j]) as real), q1 as real);
    out[y + l + 32] := Mul(Mul(d, Int8(s[scOff + j + 2]) as real), q2 as real);
    out[y + l + 64] := Mul(Mul(d, Int8(s[scOff + j + 4]) as real), q3 as real);
    out[y + l + 96] := Mul(Mul(d, Int8(s[scOff + j + 6]) as real), q4 as real);
    LanesKept(half, s, o, was, out[..], n, l);
  }

  method DequantBlockQ6_K(half: Half, s: Data, o: nat) returns (out: array<real>)
    requires o + 210 <= |s|
    ensures fresh(out) && out.Length == QK_K && Filled(Q6K, half, s, o, out[..], QK_K)
  {
    hide Mul, Block, Filled, Lane6, Word16;
    var d := half(Word16(s, o + 208) as nat);
    out := new real[QK_K];
    var y, qlOff, qhOff, scOff := 0, o, o + 128, o + 192;
    for n := 0 to 2
      invariant y == 128 * n && qlOff == o + 64 * n && qhOff == o + 128 + 32 * n && scOff == o + 192 + 8 * n
      invariant forall n', l :: 0 <= n' < n && 0 <= l < 32 ==> Lane6(half, s, o, out[..], n', l)
    {
      for l := 0 to 32
        invariant forall n', l' :: 0 <= n' < n && 0 <= l' < 32 ==> Lane6(half, s, o, out[..], n', l')
        invariant forall l' :: 0 <= l' < l ==> Lane6(half, s, o, out[..], n, l')
      {
        PutLane6(half, s, o, out, n, l, y, qlOff, qhOff, scOff, d);
      }
      y, qlOff, qhOff, scOff := y + 128, qlOff + 64, qhOff + 32, scOff + 8;
    }
    AllLanes(half, s, o, out[..]);
  }

  /** The next lane is done, and lanes are apart. */
  lemma LanesKept(half: Half, s: Data, o: nat, was: seq<real>, now: seq<real>, n: nat, l: nat)
    requires o + 210 <= |s| && n < 2 && l < 32 && |was| == |now| == QK_K
    requires now[128 * n + l] == Weight6(half, s, o, 4 * n, l) && now[128 * n + 32 + l] == Weight6(half, s, o, 4 * n + 1, l)
    requires now[128 * n + 64 + l] == Weight6(half, s, o, 4 * n + 2, l) && now[128 * n + 96 + l] == Weight6(half, s, o, 4 * n + 3, l)
    requires forall y :: 0 <= y < QK_K && !(y / 128 == n && y % 32 == l) ==> now[y] == was[y]
    ensures Lane6(half, s, o, now, n, l)
    ensures forall n', l' :: 0 <= n' < 2 && 0 <= l' < 32 && (n' != n || l' != l) && Lane6(half, s, o, was, n', l') ==> Lane6(half, s, o, now, n', l')
  {
    hide Weight6;
    forall n', l' | 0 <= n' < 2 && 0 <= l' < 32 && (n' != n || l' != l) && Lane6(half, s, o, was, n', l')
      ensures Lane6(half, s, o, now, n', l')
    {
      forall k | 0 <= k < 4 ensures now[128 * n' + 32 * k + l'] == Weight6(half, s, o, 4 * n' + k, l') {
        var y := 128 * n' + 32 * k + l';
        assert y / 128 == n' && y % 32 == l';
      }
    }
  }

  // ---------------------------------------------------------------------------------
  // Whole buffers
  // ---------------------------------------------------------------------------------

  method DequantBlock(f: Format, half: Half, s: Data, o: nat) returns (out: array<real>)
    requires o + RawSize(f) <= |s|
    ensures fresh(out) && out.Length == QK_K && out[..] == Block(f, half, s, o)
  {
    hide Block;
    match f {
      case Q2K => out := DequantBlockQ2_K(half, s, o);
      case Q3K => out := DequantBlockQ3_K(half, s, o);
      case Q4K => out := DequantBlockQ4_K(half, s, o);
      case Q5K => out := DequantBlockQ5_K(half, s, o);
      case Q6K => out := DequantBlockQ6_K(half, s, o);
    }
    assert out[..QK_K] == out[..] && Block(f, half, s, o)[..QK_K] == Block(f, half, s, o);
  }

  /** Weight y of the i-th block. */
  function WeightAt(f: Format, half: Half, s: Data, i: nat, y: nat): real {
    if Offset(i, RawSize(f)) + RawSize(f) <= |s| && y < QK_K then Block(f, half, s, Offset(i, RawSize(f)))[y] else 0.0
  }

  /** n weights from the first weight of block `first` on. */
  function Row(f: Format, half: Half, s: Data, first: nat, n: nat): (w: seq<real>)
    ensures |w| == n
  {
    seq(n, c requires 0 <= c < n => WeightAt(f, half, s, first + c / QK_K, c % QK_K))
  }

  /** Blocks needed for n weights. */
  function BlocksFor(n: nat): nat { (n + QK_K - 1) / QK_K }

  /** Dequantises n weights, the last block possibly in part. */
  method DequantInto(f: Format, half: Half, dst: array<real>, data: Data, n: int) returns (ok: bool)
    modifies dst
    ensures ok <==> n == 0 || (0 < n <= dst.Length && Offset(BlocksFor(n), RawSize(f)) <= |data|)
    ensures ok ==> dst[..n] == Row(f, half, data, 0, n) && dst[n..] == old(dst[n..])
    ensures !ok ==> dst[..] == old(dst[..])
  {
    hide Block, Offset, WeightAt;
    if n < 0 { return false; }
    if n == 0 { return true; }
    if dst.Length < n { return false; }
    if |data| < Offset(BlocksFor(n), RawSize(f)) { return false; }
    ghost var row := Row(f, half, data, 0, n);
    var i := 0;
    while i < n
      invariant 0 <= i && i % QK_K == 0 && dst[..Min(i, n)] == row[..Min(i, n)] && dst[n..] == old(dst[n..])
      decreases n - i
    {
      assert i / QK_K < BlocksFor(n);
      OffsetApart(i / QK_K, BlocksFor(n), RawSize(f));
      var block := DequantBlock(f, half, data, Offset(i / QK_K, RawSize(f)));
      var len := Min(QK_K, n - i);
      forall k | 0 <= k < len ensures block[k] == row[i + k] {
        CellOf(f, half, data, i, k);
      }
      forall k | 0 <= k < len {
        dst[i + k] := block[k];
      }
      assert dst[..i + len] == row[..i + len];
      i := i + QK_K;
    }
    ok := true;
  }

  function Min(a: int, b: int): int { if a < b then a else b }

  lemma CellOf(f: Format, half: Half, s: Data, i: nat, k: nat)
    requires i % QK_K == 0 && k < QK_K && Offset(i / QK_K, RawSize(f)) + RawSize(f) <= |s|
    ensures WeightAt(f, half, s, (i + k) / QK_K, (i + k) % QK_K) == Block(f, half, s, Offset(i / QK_K, RawSize(f)))[k]
  {
    hide Block, Offset;
    assert (i + k) / QK_K == i / QK_K && (i + k) % QK_K == k;
  }
}
