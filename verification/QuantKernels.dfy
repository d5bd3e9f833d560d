/** One row of a matrix-vector product straight from the expanded blocks, against the reference weights. */
module QuantKernels {
  import opened Wrappers
  import opened Offsets
  import opened RealSums
  import opened QuantBits
  import opened QuantBlocks
  import opened DeviceQuant

  // ---------------------------------------------------------------------------------
  // What a kernel finds at an address
  // ---------------------------------------------------------------------------------

  /** A block lies expanded at `base`. */
  ghost predicate At(f: Format, half: Half, raw: Data, from: nat, mem: Memory, base: nat) {
    && from + RawSize(f) <= |raw| && base + GpuSize(f) <= |mem|
    && Expanded(f, half, raw, from, mem[base..base + GpuSize(f)])
  }

  lemma FloatAt(mem: Memory, base: nat, size: nat, at: nat, xs: seq<real>, j: nat)
    requires base + size <= |mem| && Floats(mem[base..base + size], at, xs) && j < |xs|
    ensures LoadFloat(mem, base + at + 4 * j) == xs[j]
  {
    assert mem[base..base + size][at + 4 * j] == mem[base + at + 4 * j];
  }

  lemma ByteAt(mem: Memory, base: nat, size: nat, at: nat, s: Data, from: nat, n: nat, k: nat)
    requires base + size <= |mem| && Bytes(mem[base..base + size], at, s, from, n) && k < n
    ensures from + k < |s| && LoadByte(mem, base + at + k) == s[from + k]
  {
    assert mem[base..base + size][at + k] == mem[base + at + k];
  }

  /** The nibble a register holds, low or high. */
  function Nibble(r15: bv32, r19: nat): bv32 {
    if r19 != 0 then r15 >> 4 else r15 & 15
  }

  lemma NibbleIs(q: bv8, r19: nat)
    ensures CvtU32(Nibble(q as bv32, r19)) == U8(if r19 == 0 then Low(q) else High(q))
  {
    NibblesInRegister(q);
  }

  lemma Kernel4(half: Half, raw: Data, from: nat, mem: Memory, rd5: nat, r10: nat, r14: nat)
    requires At(Q4K, half, raw, from, mem, rd5) && r10 < 8 && r14 < 32
    ensures var f2, f3 := LoadFloat(mem, rd5 + 4 * r10), LoadFloat(mem, rd5 + 4 * r10 + 32);
      var r15 := LoadByte(mem, rd5 + 64 + 32 * (r10 / 2) + r14) as bv32;
      Mul(f2, CvtU32(Nibble(r15, r10 % 2))) - f3 == Weight4(half, raw, from, r10, r14)
  {
    hide Mul, Floats, Bytes, Nibble, CvtU32, U8, Low, High, Scale4, LoadFloat, LoadByte;
    FloatAt(mem, rd5, 192, 0, Scales4(half, raw, from, false), r10);
    FloatAt(mem, rd5, 192, 32, Scales4(half, raw, from, true), r10);
    ByteAt(mem, rd5, 192, 64, raw, from + 16, 128, 32 * (r10 / 2) + r14);
    NibbleIs(LoadByte(mem, rd5 + 64 + 32 * (r10 / 2) + r14), r10 % 2);
  }

  function Bit32(k: nat): bv32
    requires k < 32
  {
    (1 as bv32) << k
  }

  /** Q5_K: the nibble and, where the high byte has the group's mask bit, 16. */
  function Five(r15: bv32, r22: bv32, r21: bv32, r19: nat): bv32 {
    if r22 & r21 != 0 then Nibble(r15, r19) + 16 else Nibble(r15, r19)
  }

  lemma FiveIs(q: bv8, h: bv8, g: nat)
    requires g < 8
    ensures CvtU32(Five(q as bv32, h as bv32, Bit32(g), g % 2)) == U8(if g % 2 == 0 then Low(q) else High(q)) + Sixteen(h, Mask(g))
  {
    hide Mask;
    MaskInRegister(h, g);
    NibblesInRegister(q);
    FifthBit(q, g % 2 != 0);
  }

  lemma Kernel5(half: Half, raw: Data, from: nat, mem: Memory, rd5: nat, r10: nat, r14: nat)
    requires At(Q5K, half, raw, from, mem, rd5) && r10 < 8 && r14 < 32
    ensures var f2, f3 := LoadFloat(mem, rd5 + 4 * r10), LoadFloat(mem, rd5 + 4 * r10 + 32);
      var r15, r22 := LoadByte(mem, rd5 + 96 + 32 * (r10 / 2) + r14) as bv32, LoadByte(mem, rd5 + 64 + r14) as bv32;
      Mul(f2, CvtU32(Five(r15, r22, Bit32(2 * (r10 / 2) + r10 % 2), r10 % 2))) - f3 == Weight5(half, raw, from, r10, r14)
  {
    hide Mul, Floats, Bytes, Five, CvtU32, U8, Low, High, Scale4, LoadFloat, LoadByte, Sixteen, Mask, Bit32;
    FloatAt(mem, rd5, 224, 0, Scales4(half, raw, from, false), r10);
    FloatAt(mem, rd5, 224, 32, Scales4(half, raw, from, true), r10);
    ByteAt(mem, rd5, 224, 96, raw, from + 48, 128, 32 * (r10 / 2) + r14);
    ByteAt(mem, rd5, 224, 64, raw, from + 16, 32, r14);
    FiveIs(LoadByte(mem, rd5 + 96 + 32 * (r10 / 2) + r14), LoadByte(mem, rd5 + 64 + r14), r10);
  }

  /** Two bits of a byte in a register. */
  function CrumbOf(r17: bv32, r14: nat): bv32
    requires r14 < 32
  {
    (r17 >> r14) & 3
  }

  lemma Kernel2(half: Half, raw: Data, from: nat, mem: Memory, rd5: nat, r11: nat, r16: nat)
    requires At(Q2K, half, raw, from, mem, rd5) && r11 < 16 && r16 < 16
    ensures var f2, f3 := LoadFloat(mem, rd5 + 4 * r11), LoadFloat(mem, rd5 + 4 * r11 + 64);
      var r12, r14 := 32 * (r11 / 8) + 16 * (r11 % 2), 2 * (r11 / 2 % 4);
      Mul(f2, CvtU32(CrumbOf(LoadByte(mem, rd5 + 128 + r12 + r16) as bv32, r14))) - f3 == Weight2(half, raw, from, r11, r16)
  {
    hide Mul, Floats, Bytes, CvtU32, U8, Crumb, Scale2, LoadFloat, LoadByte;
    FloatAt(mem, rd5, 192, 0, Scales2(half, raw, from, false), r11);
    FloatAt(mem, rd5, 192, 64, Scales2(half, raw, from, true), r11);
    ByteAt(mem, rd5, 192, 128, raw, from + 16, 64, 32 * (r11 / 8) + 16 * (r11 % 2) + r16);
    CrumbInRegister(LoadByte(mem, rd5 + 128 + 32 * (r11 / 8) + 16 * (r11 % 2) + r16), 2 * (r11 / 2 % 4));
  }

  /** Q3_K: two bits, minus 4 where the high mask has no bit. */
  function ThreeOf(r17: bv32, r14: nat, r22: bv32, r21: bv32): bv32
    requires r14 < 32
  {
    if r22 & r21 == 0 then CrumbOf(r17, r14) - 4 else CrumbOf(r17, r14)
  }

  lemma ThreeIs(q: bv8, shift: nat, h: bv8, bit: nat)
    requires shift < 8 && bit < 8
    ensures CvtS32(ThreeOf(q as bv32, shift, h as bv32, Bit32(bit))) == Three(q, shift, h, Mask(bit))
  {
    hide Mask, Crumb, S32, Int8;
    MaskInRegister(h, bit);
    CrumbInRegister(q, shift);
    CrumbSmall(q, shift);
    ThirdBit(Crumb(q, shift));
    assert Int8(0) == 0 by { ThirdBit(0); ZeroByte(); }
  }

  lemma ZeroByte()
    ensures Int8(0) == 0
  {
  }

  lemma Kernel3(half: Half, raw: Data, from: nat, mem: Memory, rd5: nat, r11: nat, r16: nat)
    requires At(Q3K, half, raw, from, mem, rd5) && r11 < 16 && r16 < 16
    ensures var f2, r13 := LoadFloat(mem, rd5 + 4 * r11), 16 * (r11 % 2);
      var r12, r14, r19 := 32 * (r11 / 8) + r13, 2 * (r11 / 2 % 4), 4 * (r11 / 8) + r11 / 2 % 4;
      var r17, r22 := LoadByte(mem, rd5 + 96 + r12 + r16) as bv32, LoadByte(mem, rd5 + 64 + r13 + r16) as bv32;
      Mul(f2, CvtS32(ThreeOf(r17, r14, r22, Bit32(r19)))) == Weight3(half, raw, from, r11, r16)
  {
    hide Mul, Floats, Bytes, CvtS32, Three, ThreeOf, Mask, Scale3, LoadFloat, LoadByte, Bit32;
    FloatAt(mem, rd5, 160, 0, Scales3(half, raw, from), r11);
    ByteAt(mem, rd5, 160, 96, raw, from + 32, 64, 32 * (r11 / 8) + 16 * (r11 % 2) + r16);
    ByteAt(mem, rd5, 160, 64, raw, from, 32, 16 * (r11 % 2) + r16);
    ThreeIs(LoadByte(mem, rd5 + 96 + 32 * (r11 / 8) + 16 * (r11 % 2) + r16), 2 * (r11 / 2 % 4),
            LoadByte(mem, rd5 + 64 + 16 * (r11 % 2) + r16), 4 * (r11 / 8) + r11 / 2 % 4);
  }

  /** Q6_K: nibble, two bits above it, minus 32. */
  function SixIn(r18: bv32, high: bool, r20: bv32, shift: nat): bv32
    requires shift < 32
  {
    ((if high then r18 >> 4 else r18 & 15) | (CrumbOf(r20, shift) << 4)) - 32
  }

  lemma SixIs(q: bv8, high: bool, h: bv8, shift: nat)
    requires shift < 8
    ensures CvtS32(SixIn(q as bv32, high, h as bv32, shift)) == (Int8(SixOf(if high then High(q) else Low(q), Crumb(h, shift))) - 32) as real
  {
    hide Crumb, S32, Int8;
    var low := if high then High(q) else Low(q);
    NibbleSmall(q, high);
    CrumbInRegister(h, shift);
    CrumbSmall(h, shift);
    SixBits(low, Crumb(h, shift));
  }

  lemma NibbleSmall(q: bv8, high: bool)
    ensures (if high then High(q) else Low(q)) < 16
    ensures (if high then (q as bv32) >> 4 else (q as bv32) & 15) == (if high then High(q) else Low(q)) as bv32
  {
  }

  /** Quarter k of half r10 at lane r17. */
  lemma Kernel6(half: Half, raw: Data, from: nat, mem: Memory, rd5: nat, r10: nat, r17: nat, k: nat)
    requires At(Q6K, half, raw, from, mem, rd5) && r10 < 2 && r17 < 32 && k < 4
    ensures var f := LoadFloat(mem, rd5 + 32 * r10 + 4 * (r17 / 16) + 8 * k);
      var r18, r20 := LoadByte(mem, rd5 + 64 + 64 * r10 + r17 + 32 * (k % 2)) as bv32, LoadByte(mem, rd5 + 192 + 32 * r10 + r17) as bv32;
      Mul(f, CvtS32(SixIn(r18, k >= 2, r20, 2 * k))) == Weight6(half, raw, from, 4 * r10 + k, r17)
  {
    hide Mul, Floats, Bytes, CvtS32, SixIn, SixOf, Int8, Crumb, Low, High, Scale6, LoadFloat, LoadByte;
    assert (4 * r10 + k) / 4 == r10 && (4 * r10 + k) % 4 == k;
    FloatAt(mem, rd5, 256, 0, Scales6(half, raw, from), 8 * r10 + 2 * k + r17 / 16);
    ByteAt(mem, rd5, 256, 64, raw, from, 128, 64 * r10 + 32 * (k % 2) + r17);
    ByteAt(mem, rd5, 256, 192, raw, from + 128, 64, 32 * r10 + r17);
    SixIs(LoadByte(mem, rd5 + 64 + 64 * r10 + r17 + 32 * (k % 2)), k >= 2, LoadByte(mem, rd5 + 192 + 32 * r10 + r17), 2 * k);
  }

  // ---------------------------------------------------------------------------------
  // The loops
  // ---------------------------------------------------------------------------------

  /** Products of the first k columns. */
  ghost function Sofar(w: seq<real>, vec: seq<real>, k: nat): real
    requires |w| == |vec|
  {
    if k <= |w| then Dot(w[..k], vec[..k]) else 0.0
  }

  lemma SofarNext(w: seq<real>, vec: seq<real>, k: nat)
    requires |w| == |vec| && k < |w|
    ensures Sofar(w, vec, k + 1) == Sofar(w, vec, k) + Mul(w[k], vec[k])
  {
    assert w[..k + 1][..k] == w[..k] && vec[..k + 1][..k] == vec[..k];
  }

  /** The row holds the block's weights from column `at` on. */
  ghost predicate Holds(f: Format, half: Half, raw: Data, from: nat, w: seq<real>, at: nat) {
    from + RawSize(f) <= |raw| && at + QK_K <= |w| && w[at..at + QK_K] == Block(f, half, raw, from)
  }

  lemma HeldWeight(f: Format, half: Half, raw: Data, from: nat, w: seq<real>, at: nat, g: nat, l: nat)
    requires Holds(f, half, raw, from, w, at) && Lanes(f) * g + l < QK_K && l < Lanes(f)
    ensures at + Lanes(f) * g + l < |w| && w[at + Lanes(f) * g + l] == Weight(f, half, raw, from, g, l)
  {
    hide Block, Weight;
    BlockAt(f, half, raw, from, g, l);
    assert w[at..at + QK_K][Lanes(f) * g + l] == w[at + (Lanes(f) * g + l)];
  }

  /** 8 groups of 32 nibbles. */
  method BlockQ4_K(ghost half: Half, ghost raw: Data, ghost from: nat, mem: Memory, rd5: nat, vec: seq<real>, r8: nat, start: real, ghost w: seq<real>)
    returns (f1: real)
    requires At(Q4K, half, raw, from, mem, rd5) && Holds(Q4K, half, raw, from, w, 256 * r8) && |w| == |vec|
    requires start == Sofar(w, vec, 256 * r8)
    ensures f1 == Sofar(w, vec, 256 * r8 + 256)
  {
    hide Mul, At, Holds, Sofar, Weight4, Nibble, CvtU32, LoadFloat, LoadByte;
    f1 := start;
    for r10 := 0 to 8
      invariant f1 == Sofar(w, vec, 256 * r8 + 32 * r10)
    {
      var f2, f3 := LoadFloat(mem, rd5 + 4 * r10), LoadFloat(mem, rd5 + 4 * r10 + 32);
      var rd11 := rd5 + 64 + 32 * (r10 / 2);
      var r19 := r10 % 2;
      for r14 := 0 to 32
        invariant f1 == Sofar(w, vec, 256 * r8 + 32 * r10 + r14)
      {
        Kernel4(half, raw, from, mem, rd5, r10, r14);
        HeldWeight(Q4K, half, raw, from, w, 256 * r8, r10, r14);
        var r15 := LoadByte(mem, rd11 + r14) as bv32;
        var f5 := Mul(f2, CvtU32(Nibble(r15, r19))) - f3;
        SofarNext(w, vec, 256 * r8 + 32 * r10 + r14);
        f1 := f1 + Mul(f5, vec[r8 * 256 + r10 * 32 + r14]);
      }
    }
  }

  method BlockQ5_K(ghost half: Half, ghost raw: Data, ghost from: nat, mem: Memory, rd5: nat, vec: seq<real>, r8: nat, start: real, ghost w: seq<real>)
    returns (f1: real)
    requires At(Q5K, half, raw, from, mem, rd5) && Holds(Q5K, half, raw, from, w, 256 * r8) && |w| == |vec|
    requires start == Sofar(w, vec, 256 * r8)
    ensures f1 == Sofar(w, vec, 256 * r8 + 256)
  {
    hide Mul, At, Holds, Sofar, Weight5, Five, Bit32, CvtU32, LoadFloat, LoadByte;
    f1 := start;
    for r10 := 0 to 8
      invariant f1 == Sofar(w, vec, 256 * r8 + 32 * r10)
    {
      var f2, f3 := LoadFloat(mem, rd5 + 4 * r10), LoadFloat(mem, rd5 + 4 * r10 + 32);
      var rd11, rd16 := rd5 + 96 + 32 * (r10 / 2), rd5 + 64;
      var r19 := r10 % 2;
      var r21 := Bit32(2 * (r10 / 2) + r19);
      for r14 := 0 to 32
        invariant f1 == Sofar(w, vec, 256 * r8 + 32 * r10 + r14)
      {
        Kernel5(half, raw, from, mem, rd5, r10, r14);
        HeldWeight(Q5K, half, raw, from, w, 256 * r8, r10, r14);
        var r15, r22 := LoadByte(mem, rd11 + r14) as bv32, LoadByte(mem, rd16 + r14) as bv32;
        var f5 := Mul(f2, CvtU32(Five(r15, r22, r21, r19))) - f3;
        SofarNext(w, vec, 256 * r8 + 32 * r10 + r14);
        f1 := f1 + Mul(f5, vec[r8 * 256 + r10 * 32 + r14]);
      }
    }
  }

  /** 16 chunks of 16 two-bit weights. */
  method BlockQ2_K(ghost half: Half, ghost raw: Data, ghost from: nat, mem: Memory, rd5: nat, vec: seq<real>, r8: nat, start: real, ghost w: seq<real>)
    returns (f1: real)
    requires At(Q2K, half, raw, from, mem, rd5) && Holds(Q2K, half, raw, from, w, 256 * r8) && |w| == |vec|
    requires start == Sofar(w, vec, 256 * r8)
    ensures f1 == Sofar(w, vec, 256 * r8 + 256)
  {
    hide Mul, At, Holds, Sofar, Weight2, CrumbOf, CvtU32, LoadFloat, LoadByte;
    f1 := start;
    var r10 := r8 * 256;
    for r11 := 0 to 16
      invariant f1 == Sofar(w, vec, 256 * r8 + 16 * r11)
    {
      var f2, f3 := LoadFloat(mem, rd5 + 4 * r11), LoadFloat(mem, rd5 + 4 * r11 + 64);
      var r12 := 32 * (r11 / 8) + 16 * (r11 % 2);
      var r14 := 2 * (r11 / 2 % 4);
      var rd9 := rd5 + 128 + r12;
      var r15 := 16 * r11 + r10;
      for r16 := 0 to 16
        invariant f1 == Sofar(w, vec, 256 * r8 + 16 * r11 + r16)
      {
        Kernel2(half, raw, from, mem, rd5, r11, r16);
        HeldWeight(Q2K, half, raw, from, w, 256 * r8, r11, r16);
        var r17 := CrumbOf(LoadByte(mem, rd9 + r16) as bv32, r14);
        var f4 := Mul(f2, CvtU32(r17)) - f3;
        SofarNext(w, vec, 256 * r8 + 16 * r11 + r16);
        f1 := f1 + Mul(f4, vec[r15 + r16]);
      }
    }
  }

  method BlockQ3_K(ghost half: Half, ghost raw: Data, ghost from: nat, mem: Memory, rd5: nat, vec: seq<real>, r8: nat, start: real, ghost w: seq<real>)
    returns (f1: real)
    requires At(Q3K, half, raw, from, mem, rd5) && Holds(Q3K, half, raw, from, w, 256 * r8) && |w| == |vec|
    requires start == Sofar(w, vec, 256 * r8)
    ensures f1 == Sofar(w, vec, 256 * r8 + 256)
  {
    hide Mul, At, Holds, Sofar, Weight3, ThreeOf, Bit32, CvtS32, LoadFloat, LoadByte;
    f1 := start;
    var r10 := r8 * 256;
    for r11 := 0 to 16
      invariant f1 == Sofar(w, vec, 256 * r8 + 16 * r11)
    {
      var f2 := LoadFloat(mem, rd5 + 4 * r11);
      var r13 := 16 * (r11 % 2);
      var r12 := 32 * (r11 / 8) + r13;
      var r14 := 2 * (r11 / 2 % 4);
      var rd9, rd17 := rd5 + 96 + r12, rd5 + 64 + r13;
      var r21 := Bit32(4 * (r11 / 8) + r11 / 2 % 4);
      var r15 := 16 * r11 + r10;
      for r16 := 0 to 16
        invariant f1 == Sofar(w, vec, 256 * r8 + 16 * r11 + r16)
      {
        Kernel3(half, raw, from, mem, rd5, r11, r16);
        HeldWeight(Q3K, half, raw, from, w, 256 * r8, r11, r16);
        var r17, r22 := LoadByte(mem, rd9 + r16) as bv32, LoadByte(mem, rd17 + r16) as bv32;
        var f4 := Mul(f2, CvtS32(ThreeOf(r17, r14, r22, r21)));
        SofarNext(w, vec, 256 * r8 + 16 * r11 + r16);
        f1 := f1 + Mul(f4, vec[r15 + r16]);
      }
    }
  }

  /** Products of n columns from column k on. */
  ghost function Span(w: seq<real>, vec: seq<real>, k: nat, n: nat): real
    requires |w| == |vec|
  {
    if k + n <= |w| then Dot(w[k..k + n], vec[k..k + n]) else 0.0
  }

  lemma SpanNext(w: seq<real>, vec: seq<real>, k: nat, n: nat)
    requires |w| == |vec| && k + n < |w|
    ensures Span(w, vec, k, 0) == 0.0
    ensures Span(w, vec, k, n + 1) == Span(w, vec, k, n) + Mul(w[k + n], vec[k + n])
  {
    DotStep(w, vec, k, k, n);
  }

  lemma {:induction false} SpanJoins(w: seq<real>, vec: seq<real>, k: nat, n: nat)
    requires |w| == |vec| && k + n <= |w|
    ensures Sofar(w, vec, k + n) == Sofar(w, vec, k) + Span(w, vec, k, n)
  {
    hide Mul;
    if n == 0 {
      assert w[k..k] == [];
    } else {
      SpanJoins(w, vec, k, n - 1);
      SpanNext(w, vec, k, n - 1);
      SofarNext(w, vec, k + n - 1);
    }
  }

  /** Four quarters of a half block, each summed lane by lane. */
  ghost function Quarters(w: seq<real>, vec: seq<real>, p: nat, l: nat): real
    requires |w| == |vec|
  {
    Span(w, vec, p, l) + Span(w, vec, p + 32, l) + Span(w, vec, p + 64, l) + Span(w, vec, p + 96, l)
  }

  lemma QuartersNext(w: seq<real>, vec: seq<real>, p: nat, l: nat)
    requires |w| == |vec| && l < 32 && p + 128 <= |w|
    ensures Quarters(w, vec, p, 0) == 0.0
    ensures Quarters(w, vec, p, l + 1) == Quarters(w, vec, p, l) + Mul(w[p + l], vec[p + l]) + Mul(w[p + 32 + l], vec[p + 32 + l])
      + Mul(w[p + 64 + l], vec[p + 64 + l]) + Mul(w[p + 96 + l], vec[p + 96 + l])
  {
    hide Span, Mul;
    SpanNext(w, vec, p, l);
    SpanNext(w, vec, p + 32, l);
    SpanNext(w, vec, p + 64, l);
    SpanNext(w, vec, p + 96, l);
  }

  /** The interleaved order sums the same half block. */
  lemma QuartersJoin(w: seq<real>, vec: seq<real>, p: nat)
    requires |w| == |vec| && p + 128 <= |w|
    ensures Sofar(w, vec, p) + Quarters(w, vec, p, 32) == Sofar(w, vec, p + 128)
  {
    hide Span, Sofar;
    SpanJoins(w, vec, p, 32);
    SpanJoins(w, vec, p + 32, 32);
    SpanJoins(w, vec, p + 64, 32);
    SpanJoins(w, vec, p + 96, 32);
  }

  /** The k-th of a lane's four weights: scale k, nibble of byte k % 2, bit pair k. */
  function LaneWeight(mem: Memory, rd8: nat, rd11: nat, rd13: nat, r17: nat, k: nat): real
    requires k < 4
  {
    Mul(LoadFloat(mem, rd13 + 4 * (r17 / 16) + 8 * k),
        CvtS32(SixIn(LoadByte(mem, rd8 + r17 + 32 * (k % 2)) as bv32, k >= 2, LoadByte(mem, rd11 + r17) as bv32, 2 * k)))
  }

  lemma LaneWeightIs(half: Half, raw: Data, from: nat, mem: Memory, rd5: nat, r8: nat, r10: nat, r17: nat, k: nat, w: seq<real>)
    requires At(Q6K, half, raw, from, mem, rd5) && Holds(Q6K, half, raw, from, w, 256 * r8) && r10 < 2 && r17 < 32 && k < 4
    ensures var p := 256 * r8 + 128 * r10 + 32 * k + r17;
      p < |w| && LaneWeight(mem, rd5 + 64 + 64 * r10, rd5 + 192 + 32 * r10, rd5 + 32 * r10, r17, k) == w[p]
  {
    hide Mul, At, Holds, Weight6, SixIn, CvtS32, LoadFloat, LoadByte;
    Kernel6(half, raw, from, mem, rd5, r10, r17, k);
    HeldWeight(Q6K, half, raw, from, w, 256 * r8, 4 * r10 + k, r17);
  }

  lemma LaneWeights(half: Half, raw: Data, from: nat, mem: Memory, rd5: nat, r8: nat, r10: nat, r17: nat, w: seq<real>)
    requires At(Q6K, half, raw, from, mem, rd5) && Holds(Q6K, half, raw, from, w, 256 * r8) && r10 < 2 && r17 < 32
    ensures var p, a, b, c := 256 * r8 + 128 * r10 + r17, rd5 + 64 + 64 * r10, rd5 + 192 + 32 * r10, rd5 + 32 * r10;
      && p + 96 < |w| && LaneWeight(mem, a, b, c, r17, 0) == w[p] && LaneWeight(mem, a, b, c, r17, 1) == w[p + 32]
      && LaneWeight(mem, a, b, c, r17, 2) == w[p + 64] && LaneWeight(mem, a, b, c, r17, 3) == w[p + 96]
  {
    hide At, Holds, LaneWeight;
    LaneWeightIs(half, raw, from, mem, rd5, r8, r10, r17, 0, w);
    LaneWeightIs(half, raw, from, mem, rd5, r8, r10, r17, 1, w);
    LaneWeightIs(half, raw, from, mem, rd5, r8, r10, r17, 2, w);
    LaneWeightIs(half, raw, from, mem, rd5, r8, r10, r17, 3, w);
  }

  /** 2 halves of 32 lanes; a lane adds four columns 32 apart. */
  method BlockQ6_K(ghost half: Half, ghost raw: Data, ghost from: nat, mem: Memory, rd5: nat, vec: seq<real>, r8: nat, start: real, ghost w: seq<real>)
    returns (f1: real)
    requires At(Q6K, half, raw, from, mem, rd5) && Holds(Q6K, half, raw, from, w, 256 * r8) && |w| == |vec|
    requires start == Sofar(w, vec, 256 * r8)
    ensures f1 == Sofar(w, vec, 256 * r8 + 256)
  {
    hide Mul, At, Holds, Sofar, Quarters, LaneWeight;
    f1 := start;
    HeldWeight(Q6K, half, raw, from, w, 256 * r8, 7, 31);
    for r10 := 0 to 2
      invariant f1 == Sofar(w, vec, 256 * r8 + 128 * r10)
    {
      var rd8, rd11, rd13 := rd5 + 64 + 64 * r10, rd5 + 192 + 32 * r10, rd5 + 32 * r10;
      var r16 := 256 * r8 + 128 * r10;
      QuartersNext(w, vec, r16, 0);
      for r17 := 0 to 32
        invariant f1 == Sofar(w, vec, r16) + Quarters(w, vec, r16, r17)
      {
        LaneWeights(half, raw, from, mem, rd5, r8, r10, r17, w);
        var w1, w2 := LaneWeight(mem, rd8, rd11, rd13, r17, 0), LaneWeight(mem, rd8, rd11, rd13, r17, 1);
        var w3, w4 := LaneWeight(mem, rd8, rd11, rd13, r17, 2), LaneWeight(mem, rd8, rd11, rd13, r17, 3);
        QuartersNext(w, vec, r16, r17);
        var r30 := r16 + r17;
        f1 := f1 + Mul(w1, vec[r30]);
        r30 := r30 + 32;
        f1 := f1 + Mul(w2, vec[r30]);
        r30 := r30 + 32;
        f1 := f1 + Mul(w3, vec[r30]);
        r30 := r30 + 32;
        f1 := f1 + Mul(w4, vec[r30]);
      }
      QuartersJoin(w, vec, r16);
    }
  }

  method BlockDot(f: Format, ghost half: Half, ghost raw: Data, ghost from: nat, mem: Memory, rd5: nat, vec: seq<real>, r8: nat, start: real, ghost w: seq<real>)
    returns (f1: real)
    requires At(f, half, raw, from, mem, rd5) && Holds(f, half, raw, from, w, 256 * r8) && |w| == |vec|
    requires start == Sofar(w, vec, 256 * r8)
    ensures f1 == Sofar(w, vec, 256 * r8 + 256)
  {
    hide At, Holds, Sofar;
    match f {
      case Q2K => f1 := BlockQ2_K(half, raw, from, mem, rd5, vec, r8, start, w);
      case Q3K => f1 := BlockQ3_K(half, raw, from, mem, rd5, vec, r8, start, w);
      case Q4K => f1 := BlockQ4_K(half, raw, from, mem, rd5, vec, r8, start, w);
      case Q5K => f1 := BlockQ5_K(half, raw, from, mem, rd5, vec, r8, start, w);
      case Q6K => f1 := BlockQ6_K(half, raw, from, mem, rd5, vec, r8, start, w);
    }
  }

  /** The block a thread reads for block b of its row r4: a 32-bit number, which wraps. */
  function BlockIndex(r4: nat, r7: nat, b: nat): nat { U32(U32(Offset(r4, r7)) + b) }

  /** The weights a row's thread sees. */
  function KernelRow(f: Format, half: Half, raw: Data, r4: nat, cols: nat): (w: seq<real>)
    ensures |w| == cols
  {
    seq(cols, c requires 0 <= c < cols => WeightAt(f, half, raw, BlockIndex(r4, cols / QK_K, c / QK_K), c % QK_K))
  }

  lemma BlockIndexBelow(r4: nat, r7: nat, b: nat)
    ensures BlockIndex(r4, r7, b) <= Offset(r4, r7) + b
    ensures Offset(r4, r7) + b < WORD ==> BlockIndex(r4, r7, b) == Offset(r4, r7) + b
    ensures BlockIndex(r4, r7, b) < WORD
  {
    hide Offset;
    var x := Offset(r4, r7);
    assert U32(x) <= x && (x < WORD ==> U32(x) == x);
    assert U32(U32(x) + b) <= U32(x) + b;
  }

  /** The threads find every block of the matrix if and only if it has at most 2^32 of them. */
  lemma AllBlocksFound(rows: nat, r7: nat)
    requires 0 < rows && 0 < r7
    ensures (forall r, b :: 0 <= r < rows && 0 <= b < r7 ==> BlockIndex(r, r7, b) == Offset(r, r7) + b) <==> Offset(rows, r7) <= WORD
  {
    hide Offset, BlockIndex;
    if Offset(rows, r7) <= WORD {
      forall r, b | 0 <= r < rows && 0 <= b < r7 ensures BlockIndex(r, r7, b) == Offset(r, r7) + b {
        OffsetApart(r, rows, r7);
        BlockIndexBelow(r, r7, b);
      }
    } else {
      BlockIndexBelow(rows - 1, r7, r7 - 1);
      OffsetSum(rows - 1, 1, r7);
      OneRow(r7);
      assert BlockIndex(rows - 1, r7, r7 - 1) != Offset(rows - 1, r7) + (r7 - 1);
    }
  }

  lemma OneRow(r7: nat)
    ensures Offset(1, r7) == r7
  {
  }

  /** Where no block number wraps, a thread sees its own row. */
  lemma KernelRowIsRow(f: Format, half: Half, raw: Data, rows: nat, r4: nat, cols: nat)
    requires cols % QK_K == 0 && r4 < rows && Offset(rows, cols / QK_K) <= WORD
    ensures KernelRow(f, half, raw, r4, cols) == Row(f, half, raw, Offset(r4, cols / QK_K), cols)
  {
    hide Offset, WeightAt, BlockIndex;
    var r7 := cols / QK_K;
    OffsetApart(r4, rows, r7);
    forall c | 0 <= c < cols ensures BlockIndex(r4, r7, c / QK_K) == Offset(r4, r7) + c / QK_K {
      BlockIndexBelow(r4, r7, c / QK_K);
    }
  }

  /** A block number that wraps reads a block 2^32 before the one that is meant. */
  lemma WrappedBlock(r4: nat, r7: nat, b: nat)
    requires b < r7 < WORD && Offset(r4, r7) < WORD <= Offset(r4, r7) + b
    ensures BlockIndex(r4, r7, b) == Offset(r4, r7) + b - WORD
  {
    hide Offset;
  }

  /** Row r4 of the matrix times vec, block by block from device memory: the dot product with the weights the thread sees, for
      every matrix. */
  method MatMulVecRow(f: Format, ghost half: Half, ghost raw: Data, mem: Memory, rows: nat, cols: nat, vec: seq<real>, r4: nat) returns (f1: real)
    requires cols % QK_K == 0 && |vec| == cols && r4 < rows
    requires Loaded(f, half, raw, Offset(rows, cols / QK_K), mem)
    ensures f1 == Dot(KernelRow(f, half, raw, r4, cols), vec)
    ensures Offset(rows, cols / QK_K) <= WORD ==> f1 == Dot(Row(f, half, raw, Offset(r4, cols / QK_K), cols), vec)
  {
    hide At, Holds, Sofar, Loaded, Offset, Dot, WeightAt, BlockIndex, KernelRow, Row;
    var r7 := cols / 256;
    ghost var w := KernelRow(f, half, raw, r4, cols);
    f1 := 0.0;
    SofarEnds(w, vec);
    OffsetApart(r4, rows, r7);
    for r8 := 0 to r7
      invariant f1 == Sofar(w, vec, 256 * r8)
    {
      var r9 := BlockIndex(r4, r7, r8);
      BlockIndexBelow(r4, r7, r8);
      var rd5 := Offset(r9, GpuSize(f));
      RowBlock(f, half, raw, Offset(rows, r7), mem, r4, r8, cols);
      f1 := BlockDot(f, half, raw, Offset(r9, RawSize(f)), mem, rd5, vec, r8, f1, w);
    }
    if Offset(rows, cols / QK_K) <= WORD { KernelRowIsRow(f, half, raw, rows, r4, cols); }
  }

  lemma SofarEnds(w: seq<real>, vec: seq<real>)
    requires |w| == |vec|
    ensures Sofar(w, vec, 0) == 0.0 && Sofar(w, vec, |w|) == Dot(w, vec)
  {
    assert w[..|w|] == w && vec[..|w|] == vec;
  }

  /** The block of a row is loaded where the kernel looks for it and holds the next weights the thread sees. */
  lemma RowBlock(f: Format, half: Half, raw: Data, n: nat, mem: Memory, r4: nat, b: nat, cols: nat)
    requires Loaded(f, half, raw, n, mem) && BlockIndex(r4, cols / QK_K, b) < n && 256 * b + 256 <= cols
    ensures var i := BlockIndex(r4, cols / QK_K, b);
      && At(f, half, raw, Offset(i, RawSize(f)), mem, Offset(i, GpuSize(f)))
      && Holds(f, half, raw, Offset(i, RawSize(f)), KernelRow(f, half, raw, r4, cols), 256 * b)
  {
    hide Expanded, Offset, Block, BlockIndex;
    var i, w := BlockIndex(r4, cols / QK_K, b), KernelRow(f, half, raw, r4, cols);
    assert BlockLoaded(f, half, raw, i, mem);
    var from := Offset(i, RawSize(f));
    forall y | 0 <= y < QK_K ensures w[256 * b + y] == Block(f, half, raw, from)[y] {
      assert (256 * b + y) / QK_K == b && (256 * b + y) % QK_K == y;
    }
  }

  // ---------------------------------------------------------------------------------
  // Both ways
  // ---------------------------------------------------------------------------------

  /** Rows of the matrix, as slices of the whole dequantised buffer. */
  lemma RowOfMatrix(f: Format, half: Half, raw: Data, rows: nat, cols: nat, r: nat)
    requires cols % QK_K == 0 && r < rows
    ensures Offset(r, cols) + cols <= Offset(rows, cols)
    ensures Row(f, half, raw, 0, Offset(rows, cols))[Offset(r, cols)..Offset(r, cols) + cols] == Row(f, half, raw, Offset(r, cols / QK_K), cols)
  {
    hide WeightAt, Offset;
    OffsetApart(r, rows, cols);
    var all, row := Row(f, half, raw, 0, Offset(rows, cols)), Row(f, half, raw, Offset(r, cols / QK_K), cols);
    forall c | 0 <= c < cols ensures all[Offset(r, cols)..Offset(r, cols) + cols][c] == row[c] {
      ColumnOf(r, cols, c);
    }
  }

  lemma ColumnOf(r: nat, cols: nat, c: nat)
    requires cols % QK_K == 0
    ensures (Offset(r, cols) + c) / QK_K == Offset(r, cols / QK_K) + c / QK_K && (Offset(r, cols) + c) % QK_K == c % QK_K
  {
    var m := cols / QK_K;
    assert cols == m * QK_K;
    assert Offset(r, cols) == QK_K * Offset(r, m) by { OffsetNested(r, m, QK_K); assert cols == Offset(m, QK_K); }
  }

  /** Host: dequantise everything, then multiply. */
  method HostMatMulVec(f: Format, half: Half, raw: Data, rows: nat, cols: nat, vec: seq<real>) returns (out: seq<real>)
    requires cols % QK_K == 0 && |vec| == cols && |raw| == Offset(Offset(rows, cols / QK_K), RawSize(f))
    ensures |out| == rows
    ensures forall r :: 0 <= r < rows ==> out[r] == Dot(Row(f, half, raw, Offset(r, cols / QK_K), cols), vec)
  {
    hide WeightAt, Offset, Dot;
    out := [];
    MatrixBlocks(rows, cols);
    var dst := new real[Offset(rows, cols)];
    var ok := DequantInto(f, half, dst, raw, dst.Length);
    var all := dst[..];
    assert all == dst[..dst.Length] == Row(f, half, raw, 0, Offset(rows, cols));
    for r := 0 to rows
      invariant |out| == r
      invariant forall k :: 0 <= k < r ==> out[k] == Dot(Row(f, half, raw, Offset(k, cols / QK_K), cols), vec)
    {
      RowOfMatrix(f, half, raw, rows, cols, r);
      out := out + [Dot(all[Offset(r, cols)..Offset(r, cols) + cols], vec)];
    }
  }

  lemma MatrixBlocks(rows: nat, cols: nat)
    requires cols % QK_K == 0
    ensures BlocksFor(Offset(rows, cols)) == Offset(rows, cols / QK_K)
  {
    ColumnOf(rows, cols, 0);
    ColumnOf(rows, cols, QK_K - 1);
    assert (QK_K - 1) / QK_K == 0;
  }

  /** Device: upload once, then one thread per row. */
  method DeviceMatMulVec(f: Format, half: Half, raw: Data, luck: Luck, rows: nat, cols: nat, vec: seq<real>) returns (r: Option<seq<real>>)
    requires cols % QK_K == 0 && |vec| == cols && |raw| == Offset(Offset(rows, cols / QK_K), RawSize(f))
    ensures r.Some? <==> |raw| > 0 && luck.All()
    ensures r.Some? ==> |r.value| == rows
    ensures r.Some? ==> forall i :: 0 <= i < rows ==> r.value[i] == Dot(KernelRow(f, half, raw, i, cols), vec)
    ensures r.Some? && Offset(rows, cols / QK_K) <= WORD ==>
      forall i :: 0 <= i < rows ==> r.value[i] == Dot(Row(f, half, raw, Offset(i, cols / QK_K), cols), vec)
  {
    hide Loaded, Offset, Dot, KernelRow, Row;
    RowOf(Offset(rows, cols / QK_K), 0, RawSize(f));
    var mem := Upload(f, half, raw, luck);
    if mem.Err? { return None; }
    var out := [];
    for i := 0 to rows
      invariant |out| == i
      invariant forall k :: 0 <= k < i ==> out[k] == Dot(KernelRow(f, half, raw, k, cols), vec)
      invariant Offset(rows, cols / QK_K) <= WORD ==>
        forall k :: 0 <= k < i ==> out[k] == Dot(Row(f, half, raw, Offset(k, cols / QK_K), cols), vec)
    {
      var x := MatMulVecRow(f, half, raw, mem.value, rows, cols, vec, i);
      out := out + [x];
    }
    r := Some(out);
  }

  /** The two agree on every non-empty matrix of at most 2^32 whole blocks, once it is uploaded. */
  method BothWays(f: Format, half: Half, raw: Data, luck: Luck, rows: nat, cols: nat, vec: seq<real>) returns (device: Option<seq<real>>, host: seq<real>)
    requires cols % QK_K == 0 && |vec| == cols && |raw| == Offset(Offset(rows, cols / QK_K), RawSize(f))
    ensures |host| == rows && (device.Some? <==> |raw| > 0 && luck.All())
    ensures device.Some? && Offset(rows, cols / QK_K) <= WORD ==> device.value == host
  {
    hide Offset, Dot, Row, KernelRow;
    host := HostMatMulVec(f, half, raw, rows, cols, vec);
    device := DeviceMatMulVec(f, half, raw, luck, rows, cols, vec);
  }
}
