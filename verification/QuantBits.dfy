/** Bit fields of the K-quant blocks, at the widths the program uses: bytes on the host, 32-bit registers on the device. */
module QuantBits {
  type Data = seq<bv8>

  /** Little-endian 16-bit word at an offset. */
  function Word16(data: Data, at: nat): bv16
    requires at + 2 <= |data|
  {
    (data[at] as bv16) | ((data[at + 1] as bv16) << 8)
  }

  function Word32(data: Data, at: nat): bv32
    requires at + 4 <= |data|
  {
    (data[at] as bv32) | ((data[at + 1] as bv32) << 8) | ((data[at + 2] as bv32) << 16) | ((data[at + 3] as bv32) << 24)
  }

  /** A byte as an unsigned and as a signed number. */
  function U8(b: bv8): real { b as int as real }

  function Int8(b: bv8): int {
    if b < 128 then b as int else b as int - 256
  }

  /** A register as a signed number. */
  function S32(v: bv32): int {
    if v < 0x8000_0000 then v as int else v as int - 0x1_0000_0000
  }

  /** Unsigned register to float. */
  function CvtU32(v: bv32): real { v as int as real }

  function CvtS32(v: bv32): real { S32(v) as real }

  function Crumb(q: bv8, shift: nat): bv8
    requires shift <= 8
  {
    (q >> shift) & 3
  }

  function Mask(bit: nat): bv8
    requires bit <= 8
  {
    (1 as bv8) << bit
  }

  /** Moving the mask bit on; behind bit 7 it falls out of the byte. */
  lemma MaskShift(bit: nat)
    requires bit < 8
    ensures Mask(bit) << 1 == Mask(bit + 1)
    ensures bit < 7 ==> Mask(bit) << 2 == if bit < 6 then Mask(bit + 2) else 0
  {
    if bit == 0 {} else if bit == 1 {} else if bit == 2 {} else if bit == 3 {}
    else if bit == 4 {} else if bit == 5 {} else if bit == 6 {} else {}
  }

  // ---------------------------------------------------------------------------------
  // The same fields in a 32-bit register
  // ---------------------------------------------------------------------------------

  lemma NibblesInRegister(q: bv8)
    ensures CvtU32((q as bv32) & 15) == U8(q & 15)
    ensures CvtU32((q as bv32) >> 4) == U8(q >> 4)
  {
    assert (q as bv32) & 15 == (q & 15) as bv32;
    assert (q as bv32) >> 4 == (q >> 4) as bv32;
  }

  lemma CrumbInRegister(q: bv8, shift: nat)
    requires shift < 8
    ensures (((q as bv32) >> shift) & 3) == Crumb(q, shift) as bv32
    ensures CvtU32(((q as bv32) >> shift) & 3) == U8(Crumb(q, shift))
  {
    if shift == 0 {} else if shift == 1 {} else if shift == 2 {} else if shift == 3 {}
    else if shift == 4 {} else if shift == 5 {} else if shift == 6 {} else {}
  }

  lemma MaskInRegister(q: bv8, bit: nat)
    requires bit < 8
    ensures ((q as bv32) & ((1 as bv32) << bit)) != 0 <==> (q & Mask(bit)) != 0
  {
    if bit == 0 {} else if bit == 1 {} else if bit == 2 {} else if bit == 3 {}
    else if bit == 4 {} else if bit == 5 {} else if bit == 6 {} else {}
  }

  /** The fifth bit of Q5_K: 16 more when the mask bit is set. */
  lemma FifthBit(q: bv8, high: bool)
    ensures CvtU32((if high then (q as bv32) >> 4 else (q as bv32) & 15) + 16) == U8(if high then q >> 4 else q & 15) + 16.0
  {
    var low: bv8 := if high then q >> 4 else q & 15;
    assert (if high then (q as bv32) >> 4 else (q as bv32) & 15) + 16 == (low + 16) as bv32;
    assert low < 16;
    assert (low + 16) as int == low as int + 16;
  }

  /** The third bit of Q3_K: 4 less when the mask bit is clear. */
  lemma ThirdBit(x: bv8)
    requires x < 4
    ensures S32(x as bv32) == Int8(x) && S32((x as bv32) - 4) == Int8(x) - Int8(4)
  {
    if x == 0 {} else if x == 1 {} else if x == 2 {} else {}
  }

  lemma CrumbSmall(q: bv8, shift: nat)
    requires shift <= 8
    ensures Crumb(q, shift) < 4
  {
  }

  /** The six bits of Q6_K: low nibble and two high bits, minus 32. */
  lemma SixBits(low: bv8, two: bv8)
    requires low < 16 && two < 4
    ensures S32(((low as bv32) | ((two as bv32) << 4)) - 32) == Int8(low | (two << 4)) - 32
  {
    var x := low | (two << 4);
    assert x < 64;
    assert (low as bv32) | ((two as bv32) << 4) == x as bv32;
    SixtyFour(x);
  }

  lemma SixtyFour(x: bv8)
    requires x < 64
    ensures S32((x as bv32) - 32) == x as int - 32
  {
  }

  // ---------------------------------------------------------------------------------
  // Scales
  // ---------------------------------------------------------------------------------

  /** Six-bit scale and minimum j of the 12 bytes from `at` on. */
  function ScaleMin(data: Data, at: nat, j: nat): (bv8, bv8)
    requires at + 12 <= |data| && j < 8
  {
    if j < 4 then (data[at + j] & 63, data[at + j + 4] & 63)
    else ((data[at + j + 4] & 0x0F) | ((data[at + j - 4] >> 6) << 4), (data[at + j + 4] >> 4) | ((data[at + j] >> 6) << 4))
  }

  function Low(q: bv8): bv8 { q & 15 }

  function High(q: bv8): bv8 { q >> 4 }

  /** A nibble with two more bits above it. */
  function SixOf(low: bv8, two: bv8): bv8 { low | (two << 4) }

  /** Scale c of the 12 packed bytes of Q3_K: a nibble of the first eight bytes and two bits of the last four. */
  function PackedScale(data: Data, at: nat, c: nat): bv8
    requires at + 12 <= |data| && c < 16
  {
    SixOf(if c < 8 then Low(data[at + c]) else High(data[at + c - 8]), Crumb(data[at + 8 + c % 4], 2 * (c / 4)))
  }

  // ---------------------------------------------------------------------------------
  // The fields as numbers
  // ---------------------------------------------------------------------------------

  function Four(k: nat): (p: nat)
    ensures p > 0
  {
    if k == 0 then 1 else if k == 1 then 4 else if k == 2 then 16 else 64
  }

  function Two(k: nat): (p: nat)
    ensures p > 0
  {
    if k == 0 then 1 else if k == 1 then 2 else if k == 2 then 4 else if k == 3 then 8
    else if k == 4 then 16 else if k == 5 then 32 else if k == 6 then 64 else 128
  }

  /** The low byte first. */
  lemma WordIs(data: Data, at: nat)
    requires at + 2 <= |data|
    ensures Word16(data, at) as int == data[at] as int + 256 * (data[at + 1] as int)
  {
    TwoBytes(data[at], data[at + 1]);
  }

  lemma TwoBytes(a: bv8, b: bv8)
    ensures ((a as bv16) | ((b as bv16) << 8)) as int == a as int + 256 * b as int
  {
  }

  lemma NibblesAre(q: bv8)
    ensures Low(q) as int == q as int % 16 && High(q) as int == q as int / 16
  {
    LowFour(q);
    HighFour(q);
  }

  lemma LowFour(q: bv8)
    ensures (q & 15) as int == q as int % 16
  {
  }

  lemma HighFour(q: bv8)
    ensures (q >> 4) as int == q as int / 16
  {
  }

  /** Bit pair k. */
  lemma CrumbIs(q: bv8, k: nat)
    requires k < 4
    ensures Crumb(q, 2 * k) as int == q as int / Four(k) % 4
  {
    if k == 0 {
      LowTwo(q);
      assert q >> 0 == q;
    } else if k == 1 {
      Shifted2(q);
      LowTwo(q >> 2);
    } else if k == 2 {
      HighFour(q);
      LowTwo(q >> 4);
    } else {
      Shifted6(q);
      LowTwo(q >> 6);
    }
  }

  lemma LowTwo(q: bv8)
    ensures (q & 3) as int == q as int % 4
  {
  }

  lemma Shifted2(q: bv8)
    ensures (q >> 2) as int == q as int / 4
  {
  }

  lemma Shifted6(q: bv8)
    ensures (q >> 6) as int == q as int / 64
  {
  }

  /** Bit k. */
  lemma MaskIs(q: bv8, k: nat)
    requires k < 8
    ensures q & Mask(k) != 0 <==> q as int / Two(k) % 2 == 1
  {
    hide Mask;
    Masks();
    if k == 0 {
      Bit0(q);
    } else if k == 1 {
      Bit1(q);
    } else if k == 2 {
      Bit2(q);
    } else if k == 3 {
      Bit3(q);
    } else if k == 4 {
      Bit4(q);
    } else if k == 5 {
      Bit5(q);
    } else if k == 6 {
      Bit6(q);
    } else {
      Bit7(q);
    }
  }

  lemma Masks()
    ensures Mask(0) == 1 && Mask(1) == 2 && Mask(2) == 4 && Mask(3) == 8
    ensures Mask(4) == 16 && Mask(5) == 32 && Mask(6) == 64 && Mask(7) == 128
  {
  }

  lemma Bit0(q: bv8)
    ensures q & 1 != 0 <==> q as int % 2 == 1
  {
  }

  lemma Bit1(q: bv8)
    ensures q & 2 != 0 <==> q as int / 2 % 2 == 1
  {
  }

  lemma Bit2(q: bv8)
    ensures q & 4 != 0 <==> q as int / 4 % 2 == 1
  {
  }

  lemma Bit3(q: bv8)
    ensures q & 8 != 0 <==> q as int / 8 % 2 == 1
  {
  }

  lemma Bit4(q: bv8)
    ensures q & 16 != 0 <==> q as int / 16 % 2 == 1
  {
  }

  lemma Bit5(q: bv8)
    ensures q & 32 != 0 <==> q as int / 32 % 2 == 1
  {
  }

  lemma Bit6(q: bv8)
    ensures q & 64 != 0 <==> q as int / 64 % 2 == 1
  {
  }

  lemma Bit7(q: bv8)
    ensures q & 128 != 0 <==> q as int / 128 % 2 == 1
  {
  }

  lemma SixIs(low: bv8, two: bv8)
    requires low < 16 && two < 4
    ensures SixOf(low, two) as int == low as int + 16 * two as int < 64
  {
  }

  /** Six bits of one byte, or a nibble with the two bits that those leave free. */
  lemma ScaleMinIs(data: Data, at: nat, j: nat)
    requires at + 12 <= |data| && j < 8
    ensures var (sc, m) := ScaleMin(data, at, j);
      if j < 4 then
        sc as int == data[at + j] as int % 64 && m as int == data[at + j + 4] as int % 64
      else
        && sc as int == data[at + j + 4] as int % 16 + 16 * (data[at + j - 4] as int / 64)
        && m as int == data[at + j + 4] as int / 16 + 16 * (data[at + j] as int / 64)
  {
    if j >= 4 {
      UpperScale(data[at + j + 4], data[at + j - 4]);
      UpperMin(data[at + j + 4], data[at + j]);
    } else {
      LowSix(data[at + j]);
      LowSix(data[at + j + 4]);
    }
  }

  lemma LowSix(q: bv8)
    ensures (q & 63) as int == q as int % 64
  {
  }

  lemma UpperScale(q: bv8, a: bv8)
    ensures ((q & 0x0F) | ((a >> 6) << 4)) as int == q as int % 16 + 16 * (a as int / 64)
  {
  }

  lemma UpperMin(q: bv8, b: bv8)
    ensures ((q >> 4) | ((b >> 6) << 4)) as int == q as int / 16 + 16 * (b as int / 64)
  {
  }

  /** A nibble of the first eight bytes, and above it bit pair c / 4 of the last four. */
  lemma PackedIs(data: Data, at: nat, c: nat)
    requires at + 12 <= |data| && c < 16
    ensures PackedScale(data, at, c) as int ==
      (if c < 8 then data[at + c] as int % 16 else data[at + c - 8] as int / 16) + 16 * (data[at + 8 + c % 4] as int / Four(c / 4) % 4)
  {
    hide Crumb, SixOf, Low, High;
    var q, nib := data[at + 8 + c % 4], if c < 8 then data[at + c] else data[at + c - 8];
    CrumbIs(q, c / 4);
    CrumbSmall(q, 2 * (c / 4));
    NibblesAre(nib);
    NibbleSmall(nib);
    SixIs(if c < 8 then Low(nib) else High(nib), Crumb(q, 2 * (c / 4)));
  }

  lemma NibbleSmall(q: bv8)
    ensures Low(q) < 16 && High(q) < 16
  {
  }

  // ---------------------------------------------------------------------------------
  // Four bytes at once, in a 32-bit word
  // ---------------------------------------------------------------------------------

  const KMASK1: bv32 := 0x03030303
  const KMASK2: bv32 := 0x0f0f0f0f

  function Join(a: bv8, b: bv8, c: bv8, d: bv8): bv32 {
    (a as bv32) | ((b as bv32) << 8) | ((c as bv32) << 16) | ((d as bv32) << 24)
  }

  function Lows(a: bv32): bv32 { a & KMASK2 }

  function Highs(a: bv32): bv32 { (a >> 4) & KMASK2 }

  function Crumbs(t: bv32, shift: nat): bv32 {
    match shift
    case 0 => (t >> 0) & KMASK1
    case 2 => (t >> 2) & KMASK1
    case 4 => (t >> 4) & KMASK1
    case _ => (t >> 6) & KMASK1
  }

  function Sixes(nibbles: bv32, crumbs: bv32): bv32 { nibbles | (crumbs << 4) }

  /** Byte i of a word. */
  function ByteOf(v: bv32, i: nat): bv8 {
    match i
    case 0 => (v & 0xFF) as bv8
    case 1 => ((v >> 8) & 0xFF) as bv8
    case 2 => ((v >> 16) & 0xFF) as bv8
    case _ => ((v >> 24) & 0xFF) as bv8
  }

  /** Masking a word masks each byte. */
  lemma MaskNibbles(a: bv8, b: bv8, c: bv8, d: bv8)
    ensures Lows(Join(a, b, c, d)) == Join(Low(a), Low(b), Low(c), Low(d))
    ensures Highs(Join(a, b, c, d)) == Join(High(a), High(b), High(c), High(d))
  {
  }

  lemma MaskCrumbs(a: bv8, b: bv8, c: bv8, d: bv8, shift: nat)
    requires shift == 0 || shift == 2 || shift == 4 || shift == 6
    ensures Crumbs(Join(a, b, c, d), shift) == Join(Crumb(a, shift), Crumb(b, shift), Crumb(c, shift), Crumb(d, shift))
  {
    if shift == 0 {} else if shift == 2 {} else if shift == 4 {} else {}
  }

  lemma JoinSixes(a: bv8, b: bv8, c: bv8, d: bv8, x: bv8, y: bv8, z: bv8, w: bv8)
    requires x < 4 && y < 4 && z < 4 && w < 4
    ensures Sixes(Join(a, b, c, d), Join(x, y, z, w)) == Join(SixOf(a, x), SixOf(b, y), SixOf(c, z), SixOf(d, w))
  {
  }

  lemma BytesOfJoin(a: bv8, b: bv8, c: bv8, d: bv8)
    ensures var v := Join(a, b, c, d); ByteOf(v, 0) == a && ByteOf(v, 1) == b && ByteOf(v, 2) == c && ByteOf(v, 3) == d
  {
  }

  lemma Joined(data: Data, at: nat)
    requires at + 4 <= |data|
    ensures Word32(data, at) == Join(data[at], data[at + 1], data[at + 2], data[at + 3])
  {
  }

  /** Word i of the sixteen scales. */
  function ScaleWord(data: Data, at: nat, i: nat): bv32
    requires at + 12 <= |data| && i < 4
  {
    Join(PackedScale(data, at, 4 * i), PackedScale(data, at, 4 * i + 1), PackedScale(data, at, 4 * i + 2), PackedScale(data, at, 4 * i + 3))
  }

  lemma PackedAt(data: Data, at: nat, i: nat, k: nat)
    requires at + 12 <= |data| && i < 4 && k < 4
    ensures var o := at + 4 * (i % 2) + k;
      PackedScale(data, at, 4 * i + k) == SixOf(if i < 2 then Low(data[o]) else High(data[o]), Crumb(data[at + 8 + k], 2 * i))
  {
    hide Crumb, Low, High, SixOf;
    assert (4 * i + k) % 4 == k && (4 * i + k) / 4 == i;
  }

  lemma WordBytes(data: Data, at: nat, i: nat)
    requires at + 12 <= |data| && i < 4
    ensures forall k :: 0 <= k < 4 ==> ByteOf(ScaleWord(data, at, i), k) == PackedScale(data, at, 4 * i + k)
  {
    hide PackedScale, ByteOf, Join;
    BytesOfJoin(PackedScale(data, at, 4 * i), PackedScale(data, at, 4 * i + 1), PackedScale(data, at, 4 * i + 2), PackedScale(data, at, 4 * i + 3));
  }

  /** The masks of the program make the four words. */
  lemma MaskedWord(data: Data, at: nat, i: nat)
    requires at + 12 <= |data| && i < 4
    ensures var a, t := Word32(data, at + 4 * (i % 2)), Word32(data, at + 8);
      Sixes(if i < 2 then Lows(a) else Highs(a), Crumbs(t, 2 * i)) == ScaleWord(data, at, i)
  {
    hide Join, Crumb, Low, High, SixOf, Lows, Highs, Crumbs, Sixes, Word32, PackedScale;
    var o, q := at + 4 * (i % 2), at + 8;
    PackedAt(data, at, i, 0);
    PackedAt(data, at, i, 1);
    PackedAt(data, at, i, 2);
    PackedAt(data, at, i, 3);
    Joined(data, o);
    Joined(data, q);
    MaskNibbles(data[o], data[o + 1], data[o + 2], data[o + 3]);
    MaskCrumbs(data[q], data[q + 1], data[q + 2], data[q + 3], 2 * i);
    CrumbSmall(data[q], 2 * i);
    CrumbSmall(data[q + 1], 2 * i);
    CrumbSmall(data[q + 2], 2 * i);
    CrumbSmall(data[q + 3], 2 * i);
    if i < 2 {
      JoinSixes(Low(data[o]), Low(data[o + 1]), Low(data[o + 2]), Low(data[o + 3]),
                Crumb(data[q], 2 * i), Crumb(data[q + 1], 2 * i), Crumb(data[q + 2], 2 * i), Crumb(data[q + 3], 2 * i));
    } else {
      JoinSixes(High(data[o]), High(data[o + 1]), High(data[o + 2]), High(data[o + 3]),
                Crumb(data[q], 2 * i), Crumb(data[q + 1], 2 * i), Crumb(data[q + 2], 2 * i), Crumb(data[q + 3], 2 * i));
    }
  }

  ghost predicate ScalesTo(data: Data, at: nat, n: nat, out: seq<int>)
    requires at + 12 <= |data| && n <= 16
  {
    |out| >= n && forall c :: 0 <= c < n ==> out[c] == Int8(PackedScale(data, at, c))
  }

  lemma NoScales(data: Data, at: nat)
    requires at + 12 <= |data|
    ensures ScalesTo(data, at, 0, [])
  {
  }

  lemma FourMore(data: Data, at: nat, i: nat, out: seq<int>, more: seq<int>)
    requires at + 12 <= |data| && i < 4 && |out| == 4 * i && ScalesTo(data, at, 4 * i, out) && |more| == 4
    requires forall k :: 0 <= k < 4 ==> more[k] == Int8(PackedScale(data, at, 4 * i + k))
    ensures ScalesTo(data, at, 4 * i + 4, out + more)
  {
    hide PackedScale, Int8;
    forall c | 0 <= c < 4 * i + 4 ensures (out + more)[c] == Int8(PackedScale(data, at, c)) {
      if c >= 4 * i { assert more[c - 4 * i] == Int8(PackedScale(data, at, 4 * i + (c - 4 * i))); }
    }
  }

  /** Four scales at a time. */
  method UnpackQ3KScales(data: Data, at: nat) returns (out: seq<int>)
    requires at + 12 <= |data|
    ensures |out| == 16 && ScalesTo(data, at, 16, out)
  {
    hide Join, Crumb, Word32, ByteOf, PackedScale, Int8, Lows, Highs, Crumbs, Sixes, ScaleWord, ScalesTo;
    NoScales(data, at);
    MaskedWord(data, at, 0);
    MaskedWord(data, at, 1);
    MaskedWord(data, at, 2);
    MaskedWord(data, at, 3);
    var aux0, aux1, tmp := Word32(data, at), Word32(data, at + 4), Word32(data, at + 8);
    var aux2 := Sixes(Highs(aux0), Crumbs(tmp, 4));
    var aux3 := Sixes(Highs(aux1), Crumbs(tmp, 6));
    aux0 := Sixes(Lows(aux0), Crumbs(tmp, 0));
    aux1 := Sixes(Lows(aux1), Crumbs(tmp, 2));
    var aux := [aux0, aux1, aux2, aux3];
    out := [];
    for i := 0 to 4
      invariant forall k :: 0 <= k < 4 ==> aux[k] == ScaleWord(data, at, k)
      invariant |out| == 4 * i && ScalesTo(data, at, 4 * i, out)
    {
      var v := aux[i];
      WordBytes(data, at, i);
      var more := [Int8(ByteOf(v, 0)), Int8(ByteOf(v, 1)), Int8(ByteOf(v, 2)), Int8(ByteOf(v, 3))];
      FourMore(data, at, i, out, more);
      out := out + more;
    }
  }
}
