/** Captured graphs: what their keys say, what their executables embed, and what they survive. */
module CapturedGraphs {
  import opened DeviceMemory

  /** The fields by which a cached graph is found again. */
  datatype GraphKey =
    | MatmulKey(matrix: Addr, rows: int, cols: int, code: int, kernelOnly: bool)
    | FfnKey(gate: Addr, up: Addr, down: Addr, embd: int, ffn: int, skipVec: bool)
    | ResidualKey(wo: Addr, ffnNorm: Addr, postAttnNorm: Addr, postFfnNorm: Addr, gate: Addr, up: Addr, down: Addr,
                  embd: int, attnDim: int, ffn: int, skipAttn: bool, residDev: bool, keepResid: bool)
    | LogitsKey(head: Addr, outNorm: Addr, embd: int, vocab: int)
    | QkvKey(wq: Addr, wk: Addr, wv: Addr, qNorm: Addr, kNorm: Addr, attnNorm: Addr,
             embd: int, nHeads: int, nKvHeads: int, headDim: int, residDev: bool, ropeMode: int)
    | AttnKey(dK: Addr, dV: Addr, seqLen: int, nHeads: int, nKvHeads: int, headDim: int, skipQ: bool, skipDst: bool)

  /** A pointer that a capture takes from its key or from the pools, or an argument it leaves out. */
  datatype Operand = Ptr(a: Addr) | Buf(slot: Slot) | Skip

  function NonNull(a: Addr): Operand { if a.n == 0 then Skip else Ptr(a) }

  function When(c: bool, s: Slot): Operand { if c then Buf(s) else Skip }

  /** The pointers a capture embeds, in order of their first use. */
  function Operands(key: GraphKey): seq<Operand> {
    match key
    case MatmulKey(m, _, _, _, kernelOnly) =>
      [When(!kernelOnly, HVec), Ptr(m), Buf(DVec), Buf(DOut), Buf(HOut)]
    case FfnKey(gate, up, down, _, _, skipVec) =>
      [When(!skipVec, HVec), Buf(DVec), Ptr(gate), Buf(DOut), Ptr(up), Buf(DAux), Ptr(down), Buf(HOut)]
    case ResidualKey(wo, ffnNorm, postAttn, postFfn, gate, up, down, _, _, _, skipAttn, residDev, keepResid) =>
      [When(!residDev, HResid), When(!skipAttn, HVec), Ptr(wo), Buf(DVec), Buf(DOut), NonNull(postAttn), Buf(DResid),
       Ptr(ffnNorm), Ptr(gate), Ptr(up), Buf(DAux), Ptr(down), NonNull(postFfn), When(!keepResid, HOut)]
    case LogitsKey(head, outNorm, _, _) =>
      [Buf(DResid), Ptr(outNorm), Buf(DVec), Ptr(head), Buf(DOut), Buf(HOut)]
    case QkvKey(wq, wk, wv, qNorm, kNorm, attnNorm, _, _, _, _, residDev, _) =>
      [if residDev then Buf(DResid) else Buf(HVec), if residDev then Ptr(attnNorm) else Skip, Buf(DVec),
       Ptr(wq), Buf(AQ), Ptr(wk), Buf(AKTok), Ptr(wv), Buf(AVTok), NonNull(qNorm), NonNull(kNorm),
       Buf(HCos), Buf(ACos), Buf(HSin), Buf(ASin)]
    case AttnKey(dK, dV, _, _, _, _, _, _) =>
      [Buf(AQ), Ptr(dK), Buf(AScores), Ptr(dV), Buf(ADst)]
  }

  /** An embedded pointer, with the block it meant when the graph was captured. */
  datatype Ref = Ref(a: Addr, serial: nat)

  datatype Graph = Graph(key: GraphKey, exec: seq<Ref>)

  type Live = map<Addr, Block>
  type Buffers = map<Slot, Addr>

  /** The reference `r` is what a capture would embed for `op` now: the operand's address is live, and
      the block there is the one `r` meant. Weights belong to the matmul and layer graphs, buffers
      outside the matmul pool and the KV cache to the attention graphs. */
  ghost predicate Embeds(op: Operand, r: Ref, attn: bool, live: Live, bufs: Buffers) {
    match op
    case Skip => r == Ref(NULL, 0)
    case Buf(s) => Alive(r, live) && s in bufs && bufs[s] == r.a && (attn ==> !s.InMatmulPool())
    case Ptr(a) => Alive(r, live) && a == r.a && if attn then IsKv(a, live, bufs) else live[a].payload.Weight?
  }

  ghost predicate Alive(r: Ref, live: Live) {
    r.a in live && live[r.a].serial == r.serial
  }

  ghost predicate IsKv(a: Addr, live: Live, bufs: Buffers)
    requires a in live
  {
    live[a].payload.Buffer? && !live[a].payload.slot.InMatmulPool()
    && live[a].payload.slot in bufs && bufs[live[a].payload.slot] == a
  }

  /** Replaying the graph is the same as capturing it afresh under its key: pointer by pointer it embeds
      what a capture would embed now, and all of it is live. */
  ghost predicate Current(g: Graph, live: Live, bufs: Buffers) {
    var ops := Operands(g.key);
    |g.exec| == |ops| && forall i :: 0 <= i < |ops| ==> Embeds(ops[i], g.exec[i], g.key.AttnKey?, live, bufs)
  }

  ghost predicate AllCurrent(gs: seq<Graph>, attn: bool, live: Live, bufs: Buffers) {
    gs == [] || (gs[0].key.AttnKey? == attn && Current(gs[0], live, bufs) && AllCurrent(gs[1..], attn, live, bufs))
  }

  ghost predicate BuffersLive(live: Live, bufs: Buffers) {
    forall s <- bufs :: bufs[s] in live && bufs[s].n != 0 && live[bufs[s]].payload == Buffer(s)
  }

  /** Buffers outside the matmul pool are where and what they were. */
  ghost predicate AttentionUntouched(live: Live, bufs: Buffers, live': Live, bufs': Buffers) {
    forall s <- bufs :: !s.InMatmulPool() ==>
      s in bufs' && bufs'[s] == bufs[s] && (bufs[s] in live ==> bufs[s] in live' && live'[bufs[s]] == live[bufs[s]])
  }

  /** Attention graphs notice nothing outside the attention pool and the KV cache. */
  lemma {:induction false} AttnGraphsStay(gs: seq<Graph>, live: Live, bufs: Buffers, live': Live, bufs': Buffers)
    requires AllCurrent(gs, true, live, bufs) && BuffersLive(live, bufs)
    requires AttentionUntouched(live, bufs, live', bufs')
    ensures AllCurrent(gs, true, live', bufs')
  {
    if gs != [] {
      var ops := Operands(gs[0].key);
      forall i | 0 <= i < |ops| ensures Embeds(ops[i], gs[0].exec[i], true, live', bufs') {
        assert Embeds(ops[i], gs[0].exec[i], true, live, bufs);
      }
      AttnGraphsStay(gs[1..], live, bufs, live', bufs');
    }
  }

  /** No graph notices that blocks came, or that temporary blocks went. */
  lemma {:induction false} GraphsStay(gs: seq<Graph>, attn: bool, live: Live, live': Live, bufs: Buffers)
    requires AllCurrent(gs, attn, live, bufs) && BuffersLive(live, bufs)
    requires forall a <- live :: live[a].payload != Temporary ==> a in live' && live'[a] == live[a]
    ensures AllCurrent(gs, attn, live', bufs)
  {
    if gs != [] {
      var ops := Operands(gs[0].key);
      forall i | 0 <= i < |ops| ensures Embeds(ops[i], gs[0].exec[i], attn, live', bufs) {
        assert Embeds(ops[i], gs[0].exec[i], attn, live, bufs);
      }
      GraphsStay(gs[1..], attn, live, live', bufs);
    }
  }

  /** Weights and the buffers outside the matmul pool are where and what they were. */
  ghost predicate PoolOnly(live: Live, bufs: Buffers, live': Live, bufs': Buffers) {
    && AttentionUntouched(live, bufs, live', bufs')
    && (forall a <- live :: live[a].payload.Weight? ==> a in live' && live'[a] == live[a])
  }

  /** Installing a new block for slot `s` and freeing the old one. */
  lemma Reinstalled(live: Live, bufs: Buffers, s: Slot, a: Addr)
    requires BuffersLive(live, bufs) && s.InMatmulPool()
    requires a in live && a.n != 0 && live[a].payload == Buffer(s) && (s in bufs ==> bufs[s] != a)
    ensures var live' := if s in bufs then live - {bufs[s]} else live;
      BuffersLive(live', bufs[s := a]) && PoolOnly(live, bufs, live', bufs[s := a])
  {
  }

  /** A capture under this key is possible: every operand resolves. */
  ghost predicate Capturable(key: GraphKey, live: Live, bufs: Buffers) {
    forall op <- Operands(key) :: CanEmbed(op, key.AttnKey?, live, bufs)
  }

  ghost predicate CanEmbed(op: Operand, attn: bool, live: Live, bufs: Buffers) {
    match op
    case Skip => true
    case Buf(s) => s in bufs && bufs[s] in live && (attn ==> !s.InMatmulPool())
    case Ptr(a) => a in live && if attn then IsKv(a, live, bufs) else live[a].payload.Weight?
  }

  lemma NoneCurrent(attn: bool, live: Live, bufs: Buffers)
    ensures AllCurrent([], attn, live, bufs)
  {
  }

  lemma OneMoreCurrent(gs: seq<Graph>, g: Graph, attn: bool, live: Live, bufs: Buffers)
    requires AllCurrent(gs, attn, live, bufs) && Current(g, live, bufs) && g.key.AttnKey? == attn
    ensures AllCurrent([g] + gs, attn, live, bufs)
  {
    assert ([g] + gs)[1..] == gs;
  }

  lemma {:induction false} MemberCurrent(gs: seq<Graph>, i: nat, attn: bool, live: Live, bufs: Buffers)
    requires AllCurrent(gs, attn, live, bufs) && i < |gs|
    ensures Current(gs[i], live, bufs)
  {
    if i > 0 { MemberCurrent(gs[1..], i - 1, attn, live, bufs); }
  }
}
