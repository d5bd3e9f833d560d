/** What replaying a captured graph computes: its launches in order, on the addresses it embeds. */
module GraphReplay {
  import opened DeviceMemory
  import opened CapturedGraphs

  /** A value in memory, as the computation it came from. `Held` is what an address held before the replay. */
  datatype Term =
    | Held(a: Addr)
    | Times(matrix: Term, x: Term)
    | Plus(x: Term, y: Term)
    | Normed(x: Term, w: Term)
    | Gated(gate: Term, up: Term)
    | HeadNormed(x: Term, w: Term)
    | Roped(x: Term, cos: Term, sin: Term)
    | Scored(q: Term, k: Term)
    | Weights(scores: Term)
    | Mixed(weights: Term, v: Term)

  type Contents = Addr -> Term

  function Put(c: Contents, a: Addr, t: Term): Contents {
    x => if x == a then t else c(x)
  }

  /** A copy; one that the capture left out has no source. */
  function Copy(c: Contents, from: Addr, to: Addr): Contents {
    if from.n == 0 then c else Put(c, to, c(from))
  }

  function CopyOut(c: Contents, from: Addr, to: Addr): Contents {
    if to.n == 0 then c else Put(c, to, c(from))
  }

  function MatMul(c: Contents, m: Addr, x: Addr, y: Addr): Contents { Put(c, y, Times(c(m), c(x))) }

  function RmsNorm(c: Contents, x: Addr, w: Addr, y: Addr): Contents { Put(c, y, Normed(c(x), c(w))) }

  /** A norm that some layers lack. */
  function PostNorm(c: Contents, x: Addr, w: Addr): Contents {
    if w.n == 0 then c else RmsNorm(c, x, w, x)
  }

  function HeadNorm(c: Contents, x: Addr, w: Addr): Contents {
    if w.n == 0 then c else Put(c, x, HeadNormed(c(x), c(w)))
  }

  /** The activation of the first times the second, in place of the first. */
  function Activate(c: Contents, gate: Addr, up: Addr): Contents { Put(c, gate, Gated(c(gate), c(up))) }

  function Add(c: Contents, x: Addr, y: Addr): Contents { Put(c, x, Plus(c(x), c(y))) }

  function Rope(c: Contents, x: Addr, cos: Addr, sin: Addr): Contents { Put(c, x, Roped(c(x), c(cos), c(sin))) }

  // ---------------------------------------------------------------------------------
  // The launches of each kind of graph
  // ---------------------------------------------------------------------------------

  function At(exec: seq<Ref>, i: nat): Addr {
    if i < |exec| then exec[i].a else NULL
  }

  function ReplayMatmul(e: seq<Ref>, c: Contents): Contents {
    var c := Copy(c, At(e, 0), At(e, 2));
    var c := MatMul(c, At(e, 1), At(e, 2), At(e, 3));
    CopyOut(c, At(e, 3), At(e, 4))
  }

  function ReplayFfn(e: seq<Ref>, c: Contents): Contents {
    var c := Copy(c, At(e, 0), At(e, 1));
    var c := MatMul(c, At(e, 2), At(e, 1), At(e, 3));
    var c := MatMul(c, At(e, 4), At(e, 1), At(e, 5));
    var c := Activate(c, At(e, 3), At(e, 5));
    var c := MatMul(c, At(e, 6), At(e, 3), At(e, 1));
    CopyOut(c, At(e, 1), At(e, 7))
  }

  /** Attention output to the residual. */
  function ReplayProjection(e: seq<Ref>, c: Contents): Contents {
    var c := Copy(c, At(e, 0), At(e, 6));
    var c := Copy(c, At(e, 1), At(e, 3));
    var c := MatMul(c, At(e, 2), At(e, 3), At(e, 4));
    var c := PostNorm(c, At(e, 4), At(e, 5));
    Add(c, At(e, 6), At(e, 4))
  }

  /** The feed-forward part behind it. */
  function ReplayFeedForward(e: seq<Ref>, c: Contents): Contents {
    var c := RmsNorm(c, At(e, 6), At(e, 7), At(e, 3));
    var c := MatMul(c, At(e, 8), At(e, 3), At(e, 4));
    var c := MatMul(c, At(e, 9), At(e, 3), At(e, 10));
    var c := Activate(c, At(e, 4), At(e, 10));
    var c := MatMul(c, At(e, 11), At(e, 4), At(e, 3));
    var c := PostNorm(c, At(e, 3), At(e, 12));
    var c := Add(c, At(e, 6), At(e, 3));
    CopyOut(c, At(e, 6), At(e, 13))
  }

  function ReplayLogits(e: seq<Ref>, c: Contents): Contents {
    var c := RmsNorm(c, At(e, 0), At(e, 1), At(e, 2));
    var c := MatMul(c, At(e, 3), At(e, 2), At(e, 4));
    CopyOut(c, At(e, 4), At(e, 5))
  }

  /** The input is normed where it lies, or copied, and goes through three matrices. */
  function ReplayTriple(e: seq<Ref>, c: Contents): Contents {
    var c := if At(e, 1).n != 0 then RmsNorm(c, At(e, 0), At(e, 1), At(e, 2)) else Copy(c, At(e, 0), At(e, 2));
    var c := MatMul(c, At(e, 3), At(e, 2), At(e, 4));
    var c := MatMul(c, At(e, 5), At(e, 2), At(e, 6));
    MatMul(c, At(e, 7), At(e, 2), At(e, 8))
  }

  function ReplayHeadNorms(e: seq<Ref>, c: Contents): Contents {
    var c := HeadNorm(c, At(e, 4), At(e, 9));
    HeadNorm(c, At(e, 6), At(e, 10))
  }

  /** Positions for query and key. */
  function ReplayPositions(e: seq<Ref>, c: Contents): Contents {
    var c := Copy(c, At(e, 11), At(e, 12));
    var c := Copy(c, At(e, 13), At(e, 14));
    var c := Rope(c, At(e, 4), At(e, 12), At(e, 14));
    Rope(c, At(e, 6), At(e, 12), At(e, 14))
  }

  /** All heads at once: scores, their softmax, and the weighted values. */
  function ReplayAttention(e: seq<Ref>, c: Contents): Contents {
    var c := Put(c, At(e, 2), Scored(c(At(e, 0)), c(At(e, 1))));
    var c := Put(c, At(e, 2), Weights(c(At(e, 2))));
    Put(c, At(e, 4), Mixed(c(At(e, 2)), c(At(e, 3))))
  }

  function Replay(g: Graph, c: Contents): Contents {
    match g.key
    case MatmulKey(_, _, _, _, _) => ReplayMatmul(g.exec, c)
    case FfnKey(_, _, _, _, _, _) => ReplayFfn(g.exec, c)
    case ResidualKey(_, _, _, _, _, _, _, _, _, _, _, _, _) => ReplayFeedForward(g.exec, ReplayProjection(g.exec, c))
    case LogitsKey(_, _, _, _) => ReplayLogits(g.exec, c)
    case QkvKey(_, _, _, _, _, _, _, _, _, _, _, _) => ReplayPositions(g.exec, ReplayHeadNorms(g.exec, ReplayTriple(g.exec, c)))
    case AttnKey(_, _, _, _, _, _, _, _) => ReplayAttention(g.exec, c)
  }

  // ---------------------------------------------------------------------------------
  // What they leave
  // ---------------------------------------------------------------------------------

  /** A graph that can be replayed. */
  ghost predicate Playable(g: Graph, live: Live, bufs: Buffers) {
    Current(g, live, bufs) && BuffersLive(live, bufs)
  }

  /** Every buffer has an address of its own. */
  ghost predicate OneEach(bufs: Buffers) {
    forall s, t :: s in bufs && t in bufs && bufs[s] == bufs[t] ==> s == t
  }

  lemma Apart(live: Live, bufs: Buffers)
    requires BuffersLive(live, bufs)
    ensures OneEach(bufs)
  {
  }

  lemma BuffersApart(bufs: Buffers, s: Slot, t: Slot)
    requires OneEach(bufs)
    ensures s in bufs && t in bufs && s != t ==> bufs[s] != bufs[t]
  {
  }

  /** No buffer lies here. */
  ghost predicate Clear(a: Addr, bufs: Buffers) {
    forall s <- bufs :: bufs[s] != a
  }

  ghost predicate EmbeddedAs(op: Operand, a: Addr, bufs: Buffers) {
    match op
    case Skip => a == NULL
    case Ptr(p) => a == p && Clear(p, bufs)
    case Buf(s) => s in bufs && a == bufs[s] && a.n != 0
  }

  /** The address that operand i was embedded as. */
  lemma Embedded(g: Graph, live: Live, bufs: Buffers, i: nat, op: Operand)
    requires Playable(g, live, bufs) && !g.key.AttnKey? && i < |Operands(g.key)| && Operands(g.key)[i] == op
    ensures EmbeddedAs(op, At(g.exec, i), bufs)
  {
    hide Operands;
    assert Embeds(Operands(g.key)[i], g.exec[i], g.key.AttnKey?, live, bufs);
  }

  lemma MatmulComputes(g: Graph, live: Live, bufs: Buffers, c: Contents)
    requires Playable(g, live, bufs) && g.key.MatmulKey?
    ensures var k := g.key; var x := if k.kernelOnly then DVec else HVec;
      x in bufs && HOut in bufs && Replay(g, c)(bufs[HOut]) == Times(c(k.matrix), c(bufs[x]))
  {
    hide Current, BuffersLive;
    var k := g.key;
    Apart(live, bufs);
    Embedded(g, live, bufs, 0, When(!k.kernelOnly, HVec));
    Embedded(g, live, bufs, 1, Ptr(k.matrix));
    Embedded(g, live, bufs, 2, Buf(DVec));
    Embedded(g, live, bufs, 3, Buf(DOut));
    Embedded(g, live, bufs, 4, Buf(HOut));
  }

  lemma FfnComputes(g: Graph, live: Live, bufs: Buffers, c: Contents)
    requires Playable(g, live, bufs) && g.key.FfnKey?
    ensures var k := g.key; var x := if k.skipVec then DVec else HVec;
      x in bufs && HOut in bufs && Replay(g, c)(bufs[HOut]) ==
        Times(c(k.down), Gated(Times(c(k.gate), c(bufs[x])), Times(c(k.up), c(bufs[x]))))
  {
    hide Current, BuffersLive;
    var k := g.key;
    Apart(live, bufs);
    Embedded(g, live, bufs, 0, When(!k.skipVec, HVec));
    Embedded(g, live, bufs, 1, Buf(DVec));
    Embedded(g, live, bufs, 2, Ptr(k.gate));
    Embedded(g, live, bufs, 3, Buf(DOut));
    Embedded(g, live, bufs, 4, Ptr(k.up));
    Embedded(g, live, bufs, 5, Buf(DAux));
    Embedded(g, live, bufs, 6, Ptr(k.down));
    Embedded(g, live, bufs, 7, Buf(HOut));
  }

  lemma LogitsComputes(g: Graph, live: Live, bufs: Buffers, c: Contents)
    requires Playable(g, live, bufs) && g.key.LogitsKey?
    ensures var k := g.key;
      DResid in bufs && HOut in bufs && Replay(g, c)(bufs[HOut]) == Times(c(k.head), Normed(c(bufs[DResid]), c(k.outNorm)))
  {
    hide Current, BuffersLive;
    var k := g.key;
    Apart(live, bufs);
    Embedded(g, live, bufs, 0, Buf(DResid));
    Embedded(g, live, bufs, 1, Ptr(k.outNorm));
    Embedded(g, live, bufs, 2, Buf(DVec));
    Embedded(g, live, bufs, 3, Ptr(k.head));
    Embedded(g, live, bufs, 4, Buf(DOut));
    Embedded(g, live, bufs, 5, Buf(HOut));
  }

  /** Where the first part of a residual graph finds its operands. */
  ghost predicate ProjectionLaid(k: GraphKey, e: seq<Ref>, bufs: Buffers)
    requires k.ResidualKey?
  {
    && EmbeddedAs(When(!k.residDev, HResid), At(e, 0), bufs) && EmbeddedAs(When(!k.skipAttn, HVec), At(e, 1), bufs)
    && EmbeddedAs(Ptr(k.wo), At(e, 2), bufs) && EmbeddedAs(Buf(DVec), At(e, 3), bufs) && EmbeddedAs(Buf(DOut), At(e, 4), bufs)
    && EmbeddedAs(NonNull(k.postAttnNorm), At(e, 5), bufs) && EmbeddedAs(Buf(DResid), At(e, 6), bufs)
  }

  ghost predicate FeedForwardLaid(k: GraphKey, e: seq<Ref>, bufs: Buffers)
    requires k.ResidualKey?
  {
    && EmbeddedAs(Buf(DVec), At(e, 3), bufs) && EmbeddedAs(Buf(DOut), At(e, 4), bufs) && EmbeddedAs(Buf(DResid), At(e, 6), bufs)
    && EmbeddedAs(Ptr(k.ffnNorm), At(e, 7), bufs) && EmbeddedAs(Ptr(k.gate), At(e, 8), bufs) && EmbeddedAs(Ptr(k.up), At(e, 9), bufs)
    && EmbeddedAs(Buf(DAux), At(e, 10), bufs) && EmbeddedAs(Ptr(k.down), At(e, 11), bufs)
    && EmbeddedAs(NonNull(k.postFfnNorm), At(e, 12), bufs) && EmbeddedAs(When(!k.keepResid, HOut), At(e, 13), bufs)
  }

  lemma ResidualLaid(g: Graph, live: Live, bufs: Buffers)
    requires Playable(g, live, bufs) && g.key.ResidualKey?
    ensures ProjectionLaid(g.key, g.exec, bufs) && FeedForwardLaid(g.key, g.exec, bufs)
  {
    hide Playable, EmbeddedAs, NonNull, When;
    var k := g.key;
    Embedded(g, live, bufs, 0, When(!k.residDev, HResid));
    Embedded(g, live, bufs, 1, When(!k.skipAttn, HVec));
    Embedded(g, live, bufs, 2, Ptr(k.wo));
    Embedded(g, live, bufs, 3, Buf(DVec));
    Embedded(g, live, bufs, 4, Buf(DOut));
    Embedded(g, live, bufs, 5, NonNull(k.postAttnNorm));
    Embedded(g, live, bufs, 6, Buf(DResid));
    Embedded(g, live, bufs, 7, Ptr(k.ffnNorm));
    Embedded(g, live, bufs, 8, Ptr(k.gate));
    Embedded(g, live, bufs, 9, Ptr(k.up));
    Embedded(g, live, bufs, 10, Buf(DAux));
    Embedded(g, live, bufs, 11, Ptr(k.down));
    Embedded(g, live, bufs, 12, NonNull(k.postFfnNorm));
    Embedded(g, live, bufs, 13, When(!k.keepResid, HOut));
  }

  /** x normed by w, where there is a w. */
  function MaybeNormed(x: Term, w: Addr, c: Contents): Term {
    if w.n == 0 then x else Normed(x, c(w))
  }

  lemma ProjectionComputes(k: GraphKey, e: seq<Ref>, bufs: Buffers, c: Contents)
    requires k.ResidualKey? && ProjectionLaid(k, e, bufs) && OneEach(bufs)
    ensures var x, attn := if k.residDev then DResid else HResid, if k.skipAttn then DVec else HVec;
      && x in bufs && attn in bufs && DResid in bufs
      && ReplayProjection(e, c)(bufs[DResid]) == Plus(c(bufs[x]), MaybeNormed(Times(c(k.wo), c(bufs[attn])), k.postAttnNorm, c))
    ensures forall a :: Clear(a, bufs) ==> ReplayProjection(e, c)(a) == c(a)
  {
    hide OneEach;
    BuffersApart(bufs, DVec, DOut);
    BuffersApart(bufs, DVec, DResid);
    BuffersApart(bufs, DOut, DResid);
    BuffersApart(bufs, HVec, DResid);
  }

  lemma FeedForwardComputes(k: GraphKey, e: seq<Ref>, bufs: Buffers, c: Contents)
    requires k.ResidualKey? && FeedForwardLaid(k, e, bufs) && OneEach(bufs)
    ensures DResid in bufs
    ensures var c', h := ReplayFeedForward(e, c), Normed(c(bufs[DResid]), c(k.ffnNorm));
      var out := Plus(c(bufs[DResid]),
                      MaybeNormed(Times(c(k.down), Gated(Times(c(k.gate), h), Times(c(k.up), h))), k.postFfnNorm, c));
      && c'(bufs[DResid]) == out
      && (!k.keepResid ==> HOut in bufs && c'(bufs[HOut]) == out)
  {
    hide OneEach;
    BuffersApart(bufs, DVec, DOut);
    BuffersApart(bufs, DVec, DAux);
    BuffersApart(bufs, DVec, DResid);
    BuffersApart(bufs, DOut, DAux);
    BuffersApart(bufs, DOut, DResid);
    BuffersApart(bufs, DAux, DResid);
    BuffersApart(bufs, HOut, DResid);
  }

  /** A whole layer behind attention: projection, residual, norm, gated feed-forward, residual. */
  lemma ResidualComputes(g: Graph, live: Live, bufs: Buffers, c: Contents)
    requires Playable(g, live, bufs) && g.key.ResidualKey?
    ensures var k := g.key;
      var x, attn := if k.residDev then DResid else HResid, if k.skipAttn then DVec else HVec;
      && x in bufs && attn in bufs && DResid in bufs
      && var y := Plus(c(bufs[x]), MaybeNormed(Times(c(k.wo), c(bufs[attn])), k.postAttnNorm, c));
         var h := Normed(y, c(k.ffnNorm));
         var out := Plus(y, MaybeNormed(Times(c(k.down), Gated(Times(c(k.gate), h), Times(c(k.up), h))), k.postFfnNorm, c));
         && Replay(g, c)(bufs[DResid]) == out
         && (!k.keepResid ==> HOut in bufs && Replay(g, c)(bufs[HOut]) == out)
  {
    hide Current, ReplayProjection, ReplayFeedForward;
    Apart(live, bufs);
    ResidualLaid(g, live, bufs);
    ProjectionComputes(g.key, g.exec, bufs, c);
    FeedForwardComputes(g.key, g.exec, bufs, ReplayProjection(g.exec, c));
  }

  ghost predicate QkvLaid(k: GraphKey, e: seq<Ref>, bufs: Buffers)
    requires k.QkvKey?
  {
    && EmbeddedAs(if k.residDev then Buf(DResid) else Buf(HVec), At(e, 0), bufs)
    && EmbeddedAs(if k.residDev then Ptr(k.attnNorm) else Skip, At(e, 1), bufs)
    && EmbeddedAs(Buf(DVec), At(e, 2), bufs)
    && EmbeddedAs(Ptr(k.wq), At(e, 3), bufs) && EmbeddedAs(Buf(AQ), At(e, 4), bufs)
    && EmbeddedAs(Ptr(k.wk), At(e, 5), bufs) && EmbeddedAs(Buf(AKTok), At(e, 6), bufs)
    && EmbeddedAs(Ptr(k.wv), At(e, 7), bufs) && EmbeddedAs(Buf(AVTok), At(e, 8), bufs)
    && EmbeddedAs(NonNull(k.qNorm), At(e, 9), bufs) && EmbeddedAs(NonNull(k.kNorm), At(e, 10), bufs)
    && EmbeddedAs(Buf(HCos), At(e, 11), bufs) && EmbeddedAs(Buf(ACos), At(e, 12), bufs)
    && EmbeddedAs(Buf(HSin), At(e, 13), bufs) && EmbeddedAs(Buf(ASin), At(e, 14), bufs)
  }

  lemma AllQkvLaid(g: Graph, live: Live, bufs: Buffers)
    requires Playable(g, live, bufs) && g.key.QkvKey?
    ensures QkvLaid(g.key, g.exec, bufs)
  {
    hide Playable, EmbeddedAs, NonNull, Clear, At;
    var k := g.key;
    Embedded(g, live, bufs, 0, if k.residDev then Buf(DResid) else Buf(HVec));
    Embedded(g, live, bufs, 1, if k.residDev then Ptr(k.attnNorm) else Skip);
    Embedded(g, live, bufs, 2, Buf(DVec));
    Embedded(g, live, bufs, 3, Ptr(k.wq));
    Embedded(g, live, bufs, 4, Buf(AQ));
    Embedded(g, live, bufs, 5, Ptr(k.wk));
    Embedded(g, live, bufs, 6, Buf(AKTok));
    Embedded(g, live, bufs, 7, Ptr(k.wv));
    Embedded(g, live, bufs, 8, Buf(AVTok));
    Embedded(g, live, bufs, 9, NonNull(k.qNorm));
    Embedded(g, live, bufs, 10, NonNull(k.kNorm));
    Embedded(g, live, bufs, 11, Buf(HCos));
    Embedded(g, live, bufs, 12, Buf(ACos));
    Embedded(g, live, bufs, 13, Buf(HSin));
    Embedded(g, live, bufs, 14, Buf(ASin));
  }

  function MaybeHeadNormed(x: Term, w: Addr, c: Contents): Term {
    if w.n == 0 then x else HeadNormed(x, c(w))
  }

  /** What the norms read besides is there and not written. */
  ghost predicate QkvKept(k: GraphKey, bufs: Buffers, c: Contents, c': Contents)
    requires k.QkvKey?
  {
    && (k.qNorm.n != 0 ==> c'(k.qNorm) == c(k.qNorm)) && (k.kNorm.n != 0 ==> c'(k.kNorm) == c(k.kNorm))
    && {AQ, AKTok, AVTok, HCos, HSin} <= bufs.Keys && c'(bufs[HCos]) == c(bufs[HCos]) && c'(bufs[HSin]) == c(bufs[HSin])
  }

  lemma TripleComputes(k: GraphKey, e: seq<Ref>, bufs: Buffers, c: Contents)
    requires k.QkvKey? && QkvLaid(k, e, bufs) && OneEach(bufs) && (k.residDev ==> k.attnNorm.n != 0)
    ensures var c' := ReplayTriple(e, c);
      && QkvKept(k, bufs, c, c') && (if k.residDev then DResid else HVec) in bufs
      && var x := if k.residDev then Normed(c(bufs[DResid]), c(k.attnNorm)) else c(bufs[HVec]);
         c'(bufs[AQ]) == Times(c(k.wq), x) && c'(bufs[AKTok]) == Times(c(k.wk), x) && c'(bufs[AVTok]) == Times(c(k.wv), x)
  {
    hide OneEach;
    BuffersApart(bufs, DVec, AQ);
    BuffersApart(bufs, DVec, AKTok);
    BuffersApart(bufs, DVec, AVTok);
    BuffersApart(bufs, AQ, AKTok);
    BuffersApart(bufs, AQ, AVTok);
    BuffersApart(bufs, AKTok, AVTok);
    TablesApart(bufs, DVec);
    TablesApart(bufs, AQ);
    TablesApart(bufs, AKTok);
    TablesApart(bufs, AVTok);
  }

  lemma TablesApart(bufs: Buffers, s: Slot)
    requires OneEach(bufs) && {HCos, HSin} <= bufs.Keys && s != HCos && s != HSin
    ensures s in bufs ==> bufs[HCos] != bufs[s] && bufs[HSin] != bufs[s]
  {
  }

  lemma HeadNormsCompute(k: GraphKey, e: seq<Ref>, bufs: Buffers, c: Contents)
    requires k.QkvKey? && QkvLaid(k, e, bufs) && OneEach(bufs)
    ensures var c' := ReplayHeadNorms(e, c);
      && QkvKept(k, bufs, c, c')
      && c'(bufs[AQ]) == MaybeHeadNormed(c(bufs[AQ]), k.qNorm, c) && c'(bufs[AKTok]) == MaybeHeadNormed(c(bufs[AKTok]), k.kNorm, c)
      && c'(bufs[AVTok]) == c(bufs[AVTok])
  {
    hide OneEach;
    BuffersApart(bufs, AQ, AKTok);
    BuffersApart(bufs, AQ, AVTok);
    BuffersApart(bufs, AKTok, AVTok);
    TablesApart(bufs, AQ);
    TablesApart(bufs, AKTok);
  }

  lemma PositionsCompute(k: GraphKey, e: seq<Ref>, bufs: Buffers, c: Contents)
    requires k.QkvKey? && QkvLaid(k, e, bufs) && OneEach(bufs)
    ensures var c' := ReplayPositions(e, c);
      && {AQ, AKTok, AVTok, HCos, HSin} <= bufs.Keys
      && c'(bufs[AQ]) == Roped(c(bufs[AQ]), c(bufs[HCos]), c(bufs[HSin]))
      && c'(bufs[AKTok]) == Roped(c(bufs[AKTok]), c(bufs[HCos]), c(bufs[HSin]))
      && c'(bufs[AVTok]) == c(bufs[AVTok])
  {
    hide OneEach;
    BuffersApart(bufs, AQ, AKTok);
    BuffersApart(bufs, AQ, AVTok);
    BuffersApart(bufs, AKTok, AVTok);
    BuffersApart(bufs, ACos, ASin);
    BuffersApart(bufs, ACos, AQ);
    BuffersApart(bufs, ACos, AKTok);
    BuffersApart(bufs, ACos, AVTok);
    BuffersApart(bufs, ASin, AQ);
    BuffersApart(bufs, ASin, AKTok);
    BuffersApart(bufs, ASin, AVTok);
    TablesApart(bufs, ACos);
    TablesApart(bufs, ASin);
    TablesApart(bufs, AQ);
  }

  /** Query, key and value of a token. A resident hidden state is normed first. */
  lemma QkvComputes(g: Graph, live: Live, bufs: Buffers, c: Contents)
    requires Playable(g, live, bufs) && g.key.QkvKey? && (g.key.residDev ==> g.key.attnNorm.n != 0)
    ensures var k, c' := g.key, Replay(g, c);
      && {AQ, AKTok, AVTok, HCos, HSin, if k.residDev then DResid else HVec} <= bufs.Keys
      && var x := if k.residDev then Normed(c(bufs[DResid]), c(k.attnNorm)) else c(bufs[HVec]);
         && c'(bufs[AQ]) == Roped(MaybeHeadNormed(Times(c(k.wq), x), k.qNorm, c), c(bufs[HCos]), c(bufs[HSin]))
         && c'(bufs[AKTok]) == Roped(MaybeHeadNormed(Times(c(k.wk), x), k.kNorm, c), c(bufs[HCos]), c(bufs[HSin]))
         && c'(bufs[AVTok]) == Times(c(k.wv), x)
  {
    hide Current, ReplayTriple, ReplayHeadNorms, ReplayPositions, OneEach, BuffersLive, QkvLaid;
    Apart(live, bufs);
    AllQkvLaid(g, live, bufs);
    var c1 := ReplayTriple(g.exec, c);
    TripleComputes(g.key, g.exec, bufs, c);
    HeadNormsCompute(g.key, g.exec, bufs, c1);
    PositionsCompute(g.key, g.exec, bufs, ReplayHeadNorms(g.exec, c1));
  }

  lemma AttentionComputes(g: Graph, live: Live, bufs: Buffers, c: Contents, layer: nat)
    requires Playable(g, live, bufs) && g.key.AttnKey? && {KvK(layer), KvV(layer)} <= bufs.Keys
    requires g.key.dK == bufs[KvK(layer)] && g.key.dV == bufs[KvV(layer)]
    ensures {AQ, ADst} <= bufs.Keys
    ensures Replay(g, c)(bufs[ADst]) == Mixed(Weights(Scored(c(bufs[AQ]), c(bufs[KvK(layer)]))), c(bufs[KvV(layer)]))
  {
    var e, ops := g.exec, Operands(g.key);
    assert Embeds(ops[0], e[0], true, live, bufs) && Embeds(ops[1], e[1], true, live, bufs) && Embeds(ops[2], e[2], true, live, bufs);
    assert Embeds(ops[3], e[3], true, live, bufs) && Embeds(ops[4], e[4], true, live, bufs);
    Apart(live, bufs);
    BuffersApart(bufs, AScores, KvV(layer));
  }
}
