/** The device layout of the K-quant blocks and the kernels that read it. */
module DeviceQuant {
  import opened Wrappers
  import opened Offsets
  import opened RealSums
  import opened QuantBits
  import opened QuantBlocks

  /** One byte of device memory: a plain byte, the first byte of a float, or one of its other three. */
  datatype Cell = B(b: bv8) | F(x: real) | Tail

  type Memory = seq<Cell>

  function LoadFloat(m: Memory, at: nat): real {
    if at < |m| && m[at].F? then m[at].x else 0.0
  }

  function LoadByte(m: Memory, at: nat): bv8 {
    if at < |m| && m[at].B? then m[at].b else 0
  }

  /** Bytes of a block on the device: floats for the scales, the packed bits as they were. */
  function GpuSize(f: Format): (n: nat)
    ensures n > 0
  {
    match f
    case Q2K => 192
    case Q3K => 160
    case Q4K => 192
    case Q5K => 224
    case Q6K => 256
  }

  /** Blocks end where their last field does. In the file: 256 weights of two, three, four, five or six bits, one byte for each of
      sixteen scales, or twelve packed bytes of them, and one or two halves. On the device: the same bits, and a float of four
      bytes for every scale and minimum. */
  lemma BlockBytes()
    ensures RawSize(Q2K) == 256 * 2 / 8 + 16 + 2 + 2 && GpuSize(Q2K) == 256 * 2 / 8 + 4 * 16 + 4 * 16
    ensures RawSize(Q3K) == 256 * 3 / 8 + 12 + 2 && GpuSize(Q3K) == 256 * 3 / 8 + 4 * 16
    ensures RawSize(Q4K) == 256 * 4 / 8 + 12 + 2 + 2 && GpuSize(Q4K) == 256 * 4 / 8 + 4 * 8 + 4 * 8
    ensures RawSize(Q5K) == 256 * 5 / 8 + 12 + 2 + 2 && GpuSize(Q5K) == 256 * 5 / 8 + 4 * 8 + 4 * 8
    ensures RawSize(Q6K) == 256 * 6 / 8 + 16 + 2 && GpuSize(Q6K) == 256 * 6 / 8 + 4 * 16
  {
  }

  ghost predicate Floats(cells: Memory, at: nat, xs: seq<real>) {
    at + 4 * |xs| <= |cells| && forall j :: 0 <= j < |xs| ==> cells[at + 4 * j] == F(xs[j])
  }

  ghost predicate Bytes(cells: Memory, at: nat, s: Data, from: nat, n: nat) {
    && at + n <= |cells| && from + n <= |s|
    && forall a :: at <= a < at + n ==> cells[a] == B(s[from + (a - at)])
  }

  // ---------------------------------------------------------------------------------
  // Layouts
  // ---------------------------------------------------------------------------------

  function Scales2(half: Half, s: Data, o: nat, mins: bool): seq<real>
    requires o + 84 <= |s|
  {
    seq(16, j requires 0 <= j < 16 => var sm := Scale2(half, s, o, j); if mins then sm.1 else sm.0)
  }

  function Scales3(half: Half, s: Data, o: nat): seq<real>
    requires o + 110 <= |s|
  {
    seq(16, j requires 0 <= j < 16 => Scale3(half, s, o, j))
  }

  function Scales4(half: Half, s: Data, o: nat, mins: bool): seq<real>
    requires o + 16 <= |s|
  {
    seq(8, j requires 0 <= j < 8 => var sm := Scale4(half, s, o, j); if mins then sm.1 else sm.0)
  }

  function Scales6(half: Half, s: Data, o: nat): seq<real>
    requires o + 210 <= |s|
  {
    seq(16, j requires 0 <= j < 16 => Scale6(half, s, o, j))
  }

  /** The cells of one block. */
  ghost predicate Expanded(f: Format, half: Half, s: Data, o: nat, cells: Memory)
    requires o + RawSize(f) <= |s|
  {
    match f
    case Q2K => Floats(cells, 0, Scales2(half, s, o, false)) && Floats(cells, 64, Scales2(half, s, o, true)) && Bytes(cells, 128, s, o + 16, 64)
    case Q3K => Floats(cells, 0, Scales3(half, s, o)) && Bytes(cells, 64, s, o, 32) && Bytes(cells, 96, s, o + 32, 64)
    case Q4K => Floats(cells, 0, Scales4(half, s, o, false)) && Floats(cells, 32, Scales4(half, s, o, true)) && Bytes(cells, 64, s, o + 16, 128)
    case Q5K => Floats(cells, 0, Scales4(half, s, o, false)) && Floats(cells, 32, Scales4(half, s, o, true))
      && Bytes(cells, 64, s, o + 16, 32) && Bytes(cells, 96, s, o + 48, 128)
    case Q6K => Floats(cells, 0, Scales6(half, s, o)) && Bytes(cells, 64, s, o, 128) && Bytes(cells, 192, s, o + 128, 64)
  }

  // ---------------------------------------------------------------------------------
  // Upload
  // ---------------------------------------------------------------------------------

  method StoreFloat(dst: array<Cell>, at: nat, x: real)
    requires at + 4 <= dst.Length
    modifies dst
    ensures dst[at] == F(x) && dst[at + 1] == dst[at + 2] == dst[at + 3] == Tail
    ensures forall j :: 0 <= j < dst.Length && !(at <= j < at + 4) ==> dst[j] == old(dst[j])
  {
    dst[at], dst[at + 1], dst[at + 2], dst[at + 3] := F(x), Tail, Tail, Tail;
  }

  method CopyBytes(dst: array<Cell>, to: nat, s: Data, from: nat, n: nat)
    requires to + n <= dst.Length && from + n <= |s|
    modifies dst
    ensures Bytes(dst[..], to, s, from, n)
    ensures forall j :: 0 <= j < dst.Length && !(to <= j < to + n) ==> dst[j] == old(dst[j])
  {
    forall k | 0 <= k < n {
      dst[to + k] := B(s[from + k]);
    }
  }

  /** The first j floats are stored. */
  ghost predicate FloatsTo(cells: Memory, at: nat, xs: seq<real>, j: nat) {
    at + 4 * |xs| <= |cells| && j <= |xs| && forall i :: 0 <= i < j ==> cells[at + 4 * i] == F(xs[i])
  }

  method ExpandQ2_K(half: Half, s: Data, o: nat) returns (dst: array<Cell>)
    requires o + 84 <= |s|
    ensures fresh(dst) && dst.Length == 192 && Expanded(Q2K, half, s, o, dst[..])
  {
    hide Mul, Word16, U8, Low, High;
    dst := new Cell[192](_ => Tail);
    var d, dmin := half(Word16(s, o + 80) as nat), half(Word16(s, o + 82) as nat);
    for j := 0 to 16
      invariant FloatsTo(dst[..], 0, Scales2(half, s, o, false), j) && FloatsTo(dst[..], 64, Scales2(half, s, o, true), j)
    {
      StoreFloat(dst, 4 * j, Mul(d, U8(Low(s[o + j]))));
      StoreFloat(dst, 64 + 4 * j, Mul(dmin, U8(High(s[o + j]))));
    }
    CopyBytes(dst, 128, s, o + 16, 64);
  }

  method ExpandQ3_K(half: Half, s: Data, o: nat) returns (dst: array<Cell>)
    requires o + 110 <= |s|
    ensures fresh(dst) && dst.Length == 160 && Expanded(Q3K, half, s, o, dst[..])
  {
    hide Mul, Word16, Int8, PackedScale;
    dst := new Cell[160](_ => Tail);
    var d := half(Word16(s, o + 108) as nat);
    var sc := UnpackQ3KScales(s, o + 96);
    for j := 0 to 16
      invariant FloatsTo(dst[..], 0, Scales3(half, s, o), j)
    {
      StoreFloat(dst, 4 * j, Mul(d, (sc[j] - 32) as real));
    }
    CopyBytes(dst, 64, s, o, 32);
    CopyBytes(dst, 96, s, o + 32, 64);
  }

  /** Scales and minima of Q4_K and Q5_K. */
  method StoreScales4(half: Half, s: Data, o: nat, dst: array<Cell>)
    requires o + 16 <= |s| && dst.Length >= 64
    modifies dst
    ensures Floats(dst[..], 0, Scales4(half, s, o, false)) && Floats(dst[..], 32, Scales4(half, s, o, true))
  {
    hide Mul, Word16, U8, ScaleMin;
    var d, dmin := half(Word16(s, o) as nat), half(Word16(s, o + 2) as nat);
    for j := 0 to 8
      invariant FloatsTo(dst[..], 0, Scales4(half, s, o, false), j) && FloatsTo(dst[..], 32, Scales4(half, s, o, true), j)
    {
      var (sc, m) := ScaleMin(s, o + 4, j);
      StoreFloat(dst, 4 * j, Mul(d, U8(sc)));
      StoreFloat(dst, 32 + 4 * j, Mul(dmin, U8(m)));
    }
  }

  method ExpandQ4_K(half: Half, s: Data, o: nat) returns (dst: array<Cell>)
    requires o + 144 <= |s|
    ensures fresh(dst) && dst.Length == 192 && Expanded(Q4K, half, s, o, dst[..])
  {
    hide Scale4;
    dst := new Cell[192](_ => Tail);
    StoreScales4(half, s, o, dst);
    CopyBytes(dst, 64, s, o + 16, 128);
  }

  method ExpandQ5_K(half: Half, s: Data, o: nat) returns (dst: array<Cell>)
    requires o + 176 <= |s|
    ensures fresh(dst) && dst.Length == 224 && Expanded(Q5K, half, s, o, dst[..])
  {
    hide Scale4;
    dst := new Cell[224](_ => Tail);
    StoreScales4(half, s, o, dst);
    CopyBytes(dst, 64, s, o + 16, 32);
    CopyBytes(dst, 96, s, o + 48, 128);
  }

  method ExpandQ6_K(half: Half, s: Data, o: nat) returns (dst: array<Cell>)
    requires o + 210 <= |s|
    ensures fresh(dst) && dst.Length == 256 && Expanded(Q6K, half, s, o, dst[..])
  {
    hide Mul, Word16, Int8;
    dst := new Cell[256](_ => Tail);
    var d := half(Word16(s, o + 208) as nat);
    for j := 0 to 16
      invariant FloatsTo(dst[..], 0, Scales6(half, s, o), j)
    {
      StoreFloat(dst, 4 * j, Mul(d, Int8(s[o + 192 + j]) as real));
    }
    CopyBytes(dst, 64, s, o, 128);
    CopyBytes(dst, 192, s, o + 128, 64);
  }

  /** The first n blocks are in memory, expanded. */
  ghost predicate Loaded(f: Format, half: Half, raw: Data, n: nat, mem: Memory) {
    && Offset(n, RawSize(f)) <= |raw| && |mem| == Offset(n, GpuSize(f))
    && forall i :: 0 <= i < n ==> BlockLoaded(f, half, raw, i, mem)
  }

  ghost predicate BlockLoaded(f: Format, half: Half, raw: Data, i: nat, mem: Memory) {
    var from, to := Offset(i, RawSize(f)), Offset(i, GpuSize(f));
    from + RawSize(f) <= |raw| && to + GpuSize(f) <= |mem| && Expanded(f, half, raw, from, mem[to..to + GpuSize(f)])
  }

  method ExpandBlock(f: Format, half: Half, s: Data, o: nat) returns (dst: array<Cell>)
    requires o + RawSize(f) <= |s|
    ensures fresh(dst) && dst.Length == GpuSize(f) && Expanded(f, half, s, o, dst[..])
  {
    hide Expanded;
    match f {
      case Q2K => dst := ExpandQ2_K(half, s, o);
      case Q3K => dst := ExpandQ3_K(half, s, o);
      case Q4K => dst := ExpandQ4_K(half, s, o);
      case Q5K => dst := ExpandQ5_K(half, s, o);
      case Q6K => dst := ExpandQ6_K(half, s, o);
    }
  }

  lemma LoadedMore(f: Format, half: Half, raw: Data, n: nat, mem: Memory, cells: Memory)
    requires Loaded(f, half, raw, n, mem) && Offset(n, RawSize(f)) + RawSize(f) <= |raw|
    requires |cells| == GpuSize(f) && Expanded(f, half, raw, Offset(n, RawSize(f)), cells)
    ensures Loaded(f, half, raw, n + 1, mem + cells)
  {
    hide Expanded, Offset;
    OffsetNext(n, RawSize(f));
    OffsetNext(n, GpuSize(f));
    forall i | 0 <= i < n + 1 ensures BlockLoaded(f, half, raw, i, mem + cells) {
      if i < n {
        assert BlockLoaded(f, half, raw, i, mem);
        assert (mem + cells)[Offset(i, GpuSize(f))..Offset(i, GpuSize(f)) + GpuSize(f)] == mem[Offset(i, GpuSize(f))..Offset(i, GpuSize(f)) + GpuSize(f)];
      } else {
        assert (mem + cells)[Offset(n, GpuSize(f))..Offset(n, GpuSize(f)) + GpuSize(f)] == cells;
      }
    }
  }

  lemma OffsetNext(n: nat, d: nat)
    ensures Offset(n + 1, d) == Offset(n, d) + d
  {
  }

  /** Whether the host buffer, the device block and the copy of an upload succeed. */
  datatype Luck = Luck(malloc: bool, alloc: bool, copy: bool) {
    predicate All() { malloc && alloc && copy }
  }

  /** Expands whole blocks; anything else is refused, and so is what no memory or no copy is there for. */
  method Upload(f: Format, half: Half, raw: Data, luck: Luck) returns (r: Result<Memory, int>)
    ensures r.Ok? <==> |raw| != 0 && |raw| % RawSize(f) == 0 && luck.All()
    ensures r.Err? ==>
      r.error == if |raw| == 0 || |raw| % RawSize(f) != 0 then -11 else if !luck.malloc then -12 else if !luck.alloc then -1 else -2
    ensures r.Ok? ==> Loaded(f, half, raw, |raw| / RawSize(f), r.value) && Offset(|raw| / RawSize(f), RawSize(f)) == |raw|
  {
    hide Expanded, Offset, Loaded;
    if |raw| == 0 || |raw| % RawSize(f) != 0 { return Err(-11); }
    var nblocks := |raw| / RawSize(f);
    if !luck.malloc { return Err(-12); }
    RowParts(|raw|, RawSize(f));
    var expanded: Memory := [];
    NothingLoaded(f, half, raw);
    for i := 0 to nblocks
      invariant Loaded(f, half, raw, i, expanded)
    {
      OffsetApart(i, nblocks, RawSize(f));
      var dst := ExpandBlock(f, half, raw, Offset(i, RawSize(f)));
      LoadedMore(f, half, raw, i, expanded, dst[..]);
      expanded := expanded + dst[..];
    }
    if !luck.alloc { return Err(-1); }
    if !luck.copy { return Err(-2); }
    r := Ok(expanded);
  }

  lemma NothingLoaded(f: Format, half: Half, raw: Data)
    ensures Loaded(f, half, raw, 0, [])
  {
  }
}
