/** The CUDA backend's weight cache, buffer pools and graph tables, and the fused operations that hold
    several raw device pointers across evictions, retries and pool growth. */
module WeightCache {
  import opened Wrappers
  import opened DeviceMemory
  import opened LruOrder
  import opened CapturedGraphs

  /** A cached device matrix. */
  datatype Mat = Mat(ptr: Addr, shape: Shape)

  /** The block at the pointer is live and is the upload of weight `k` in this shape. */
  ghost predicate Holds(k: Key, m: Mat, live: Live) {
    m.ptr in live && m.ptr.n != 0 && live[m.ptr].payload == Weight(k, m.shape)
  }

  ghost predicate AllHeld(matrices: map<Key, Mat>, live: Live) {
    forall k <- matrices :: Holds(k, matrices[k], live)
  }

  /** Does a table own the block at this address? Weights belong to the cache, buffers to their slots, temporary blocks to nobody. */
  ghost predicate Owned(a: Addr, b: Block, matrices: map<Key, Mat>, bufs: Buffers) {
    match b.payload
    case Weight(k, shape) => k in matrices && matrices[k] == Mat(a, shape)
    case Buffer(s) => s in bufs && bufs[s] == a
    case Temporary => false
  }

  /** Live blocks that no table owns. */
  ghost function Loose(live: Live, matrices: map<Key, Mat>, bufs: Buffers): set<Addr> {
    set a | a in live && !Owned(a, live[a], matrices, bufs)
  }

  lemma LooseAdded(live: Live, matrices: map<Key, Mat>, bufs: Buffers, a: Addr, live': Live)
    requires live' - {a} == live
    ensures Loose(live', matrices, bufs) <= Loose(live, matrices, bufs) + {a}
  {
    forall x | x in Loose(live', matrices, bufs) ensures x in Loose(live, matrices, bufs) + {a} {
      assert x == a || (x in live' - {a} && (live' - {a})[x] == live'[x]);
    }
  }

  lemma LooseFreed(live: Live, matrices: map<Key, Mat>, bufs: Buffers, a: Addr)
    ensures Loose(live - {a}, matrices, bufs) <= Loose(live, matrices, bufs) - {a}
  {
  }

  lemma LooseWeightFreed(live: Live, matrices: map<Key, Mat>, bufs: Buffers, k: Key)
    requires k in matrices
    ensures Loose(live - {matrices[k].ptr}, matrices - {k}, bufs) <= Loose(live, matrices, bufs)
  {
  }

  lemma LooseAdopted(live: Live, matrices: map<Key, Mat>, bufs: Buffers, k: Key, m: Mat)
    requires k !in matrices && Holds(k, m, live)
    ensures Loose(live, matrices[k := m], bufs) <= Loose(live, matrices, bufs) - {m.ptr}
  {
  }

  /** A slot that gives up its block and gets another one. */
  lemma LooseInstalled(live: Live, matrices: map<Key, Mat>, bufs: Buffers, s: Slot, a: Addr)
    requires a in live && live[a].payload == Buffer(s) && (s in bufs ==> bufs[s] != a)
    ensures Loose(if s in bufs then live - {bufs[s]} else live, matrices, bufs[s := a]) <= Loose(live, matrices, bufs) - {a}
  {
  }

  lemma LooseBufferFreed(live: Live, matrices: map<Key, Mat>, bufs: Buffers, s: Slot)
    requires s in bufs
    ensures Loose(live - {bufs[s]}, matrices, bufs - {s}) <= Loose(live, matrices, bufs)
  {
  }

  /** List, index, byte counter and the per-kind maps agree. */
  ghost predicate Kept(order: seq<Key>, size: map<Key, int>, bytes: int, matrices: map<Key, Mat>) {
    && WellKept(order, size, bytes)
    && matrices.Keys == size.Keys
    && (forall k <- matrices :: size[k] == matrices[k].shape.bytes)
  }

  /** The part of the backend that evictions change. */
  datatype Snapshot = Snapshot(order: seq<Key>, size: map<Key, int>, matrices: map<Key, Mat>, evictions: nat,
                               live: Live, graphs: seq<Graph>, layerGraphs: seq<Graph>)

  /** Between the two states only LRU evictions happened: the order lost a tail, with it went exactly the
      matrices of the lost keys, and no block but theirs. */
  ghost predicate OnlyEvicted(a: Snapshot, b: Snapshot) {
    && b.order <= a.order
    && b.evictions == a.evictions + |a.order| - |b.order|
    && b.matrices == (map k | k in a.matrices && k in b.order :: a.matrices[k])
    && b.size == (map k | k in a.size && k in b.order :: a.size[k])
    && (forall x <- b.live :: x in a.live && b.live[x] == a.live[x])
    && (forall x <- a.live :: x in b.live || a.live[x].payload.Weight?)
    && (if b.order == a.order
        then b.graphs == a.graphs && b.layerGraphs == a.layerGraphs && b.live == a.live
        else b.graphs == [] && b.layerGraphs == [])
  }

  /** What an operation needs a weight for. */
  datatype Role = Matrix | Gate | Up | Down | Wo | FfnNorm | PostAttnNorm | PostFfnNorm | OutNorm | OutBias | Head
    | Wq | Wk | Wv | QNorm | KNorm | AttnNorm | Table

  /** A weight an operation needs, with the dimensions it expects. */
  datatype Spec = Spec(role: Role, key: Key, shape: Shape)

  /** A role, and the dimensions of a weight for it. */
  datatype Want = Want(role: Role, rows: int, cols: int)

  predicate Serves(spec: Spec, want: Want) {
    spec.role == want.role && spec.shape.rows == want.rows && spec.shape.cols == want.cols
  }

  /** One weight for each want, in order. */
  predicate ServesAll(specs: seq<Spec>, wants: seq<Want>) {
    |specs| == |wants| && forall i :: 0 <= i < |specs| ==> Serves(specs[i], wants[i])
  }

  /** The pointer of the weight that has this role and these dimensions. */
  ghost predicate IsFor(specs: seq<Spec>, ptrs: seq<Addr>, role: Role, rows: int, cols: int, a: Addr) {
    && |ptrs| == |specs|
    && exists i :: 0 <= i < |specs| && specs[i].role == role && specs[i].shape.rows == rows && specs[i].shape.cols == cols && ptrs[i] == a
  }

  predicate OneShapePerKey(specs: seq<Spec>) {
    forall i, j :: 0 <= i < j < |specs| && specs[i].key == specs[j].key ==> specs[i].shape == specs[j].shape
  }

  /** The pointers are the cached copies of the weights of an operation. */
  ghost predicate WorkingSet(specs: seq<Spec>, ptrs: seq<Addr>, matrices: map<Key, Mat>) {
    |ptrs| == |specs| &&
    forall i :: 0 <= i < |specs| ==> specs[i].key in matrices && matrices[specs[i].key] == Mat(ptrs[i], specs[i].shape)
  }

  const ALL_KINDS: seq<Kind> := [F32, Q8_0, Q4_0, Q4_K, Q5_K, Q6_K, Q4_1, Q5_0, Q5_1, Q2_K, Q3_K, Q8_K]

  lemma DropOne(m: map<Key, Mat>, k: Key)
    ensures |m - {k}| == |m| - if k in m then 1 else 0
    ensures k !in m ==> m - {k} == m
  {
    assert (m - {k}).Keys == m.Keys - {k};
  }

  /** What is left after every kind in `done` was freed under this name. */
  ghost function Spared(was: map<Key, Mat>, name: string, done: set<Kind>): map<Key, Mat> {
    map k | k in was && (k.name != name || k.kind !in done) :: was[k]
  }

  lemma SparedStep(was: map<Key, Mat>, name: string, done: set<Kind>, kind: Kind)
    ensures Spared(was, name, {}) == was
    ensures Spared(was, name, done) - {Key(kind, name)} == Spared(was, name, done + {kind})
  {
  }

  lemma SparedAll(was: map<Key, Mat>, name: string, done: set<Kind>)
    requires forall kind :: kind in done
    ensures Spared(was, name, done) == map k | k in was && k.name != name :: was[k]
  {
  }

  /** Of the victims all but `left` are gone, and nothing else is. */
  ghost predicate Removed(was: map<Key, Mat>, now: map<Key, Mat>, victims: set<Key>, left: set<Key>) {
    left <= victims && now == was - (victims - left)
  }

  lemma RemovedStep(was: map<Key, Mat>, now: map<Key, Mat>, victims: set<Key>, left: set<Key>, k: Key)
    requires Removed(was, now, victims, left) && k in left
    ensures Removed(was, now - {k}, victims, left - {k})
    ensures |now - {k}| == |now| - if k in now then 1 else 0
  {
    DropOne(now, k);
    assert victims - (left - {k}) == (victims - left) + {k};
  }

  lemma RemovedNothing(was: map<Key, Mat>, victims: set<Key>)
    ensures Removed(was, was, victims, victims)
  {
  }

  lemma RemovedAll(was: map<Key, Mat>, now: map<Key, Mat>, victims: set<Key>)
    requires Removed(was, now, victims, {})
    ensures now == map k | k in was && k !in victims :: was[k]
  {
  }

  lemma AllKinds()
    ensures forall kind: Kind :: kind in ALL_KINDS
  {
    forall kind: Kind ensures kind in ALL_KINDS {
      match kind
      case F32 => assert ALL_KINDS[0] == kind;
      case Q8_0 => assert ALL_KINDS[1] == kind;
      case Q4_0 => assert ALL_KINDS[2] == kind;
      case Q4_K => assert ALL_KINDS[3] == kind;
      case Q5_K => assert ALL_KINDS[4] == kind;
      case Q6_K => assert ALL_KINDS[5] == kind;
      case Q4_1 => assert ALL_KINDS[6] == kind;
      case Q5_0 => assert ALL_KINDS[7] == kind;
      case Q5_1 => assert ALL_KINDS[8] == kind;
      case Q2_K => assert ALL_KINDS[9] == kind;
      case Q3_K => assert ALL_KINDS[10] == kind;
      case Q8_K => assert ALL_KINDS[11] == kind;
    }
  }

  datatype Ensured = Pointer(ptr: Addr) | UploadFailed(rc: int) | EmptyWeights

  ghost predicate NewWeight(live: Live, ptr: Addr, k: Key, shape: Shape, live': Live) {
    ptr in live' && live'[ptr].payload == Weight(k, shape) && live' == live[ptr := live'[ptr]]
  }

  lemma EvictedLive(a: Snapshot, b: Snapshot)
    requires OnlyEvicted(a, b)
    ensures b.live.Keys <= a.live.Keys
  {
  }

  lemma EvictedMatrices(a: Snapshot, b: Snapshot)
    requires OnlyEvicted(a, b)
    ensures b.matrices == map k | k in a.matrices && k in b.order :: a.matrices[k]
    ensures b.order <= a.order
  {
  }

  lemma BlockAdded(matrices: map<Key, Mat>, bufs: Buffers, graphs: seq<Graph>, layerGraphs: seq<Graph>, attnGraphs: seq<Graph>, live: Live, live': Live)
    requires AllHeld(matrices, live) && BuffersLive(live, bufs)
    requires AllCurrent(graphs, false, live, bufs) && AllCurrent(layerGraphs, false, live, bufs) && AllCurrent(attnGraphs, true, live, bufs)
    requires forall a <- live :: live[a].payload != Temporary ==> a in live' && live'[a] == live[a]
    ensures AllHeld(matrices, live') && BuffersLive(live', bufs)
    ensures AllCurrent(graphs, false, live', bufs) && AllCurrent(layerGraphs, false, live', bufs) && AllCurrent(attnGraphs, true, live', bufs)
  {
    GraphsStay(graphs, false, live, live', bufs);
    GraphsStay(layerGraphs, false, live, live', bufs);
    GraphsStay(attnGraphs, true, live, live', bufs);
  }

  /** A change confined to the matmul pool keeps weights and attention graphs. */
  lemma PoolOnlyKeeps(matrices: map<Key, Mat>, attnGraphs: seq<Graph>, live: Live, bufs: Buffers, live': Live, bufs': Buffers)
    requires AllHeld(matrices, live) && BuffersLive(live, bufs) && AllCurrent(attnGraphs, true, live, bufs)
    requires PoolOnly(live, bufs, live', bufs')
    ensures AllHeld(matrices, live') && AllCurrent(attnGraphs, true, live', bufs')
    ensures AllCurrent([], false, live', bufs')
  {
    AttnGraphsStay(attnGraphs, live, bufs, live', bufs');
  }

  lemma BufferIs(live: Live, bufs: Buffers, s: Slot)
    requires BuffersLive(live, bufs)
    ensures s in bufs ==> bufs[s] in live && live[bufs[s]].payload == Buffer(s)
  {
  }

  lemma BufferFreed(matrices: map<Key, Mat>, bufs: Buffers, s: Slot, live: Live)
    requires AllHeld(matrices, live) && BuffersLive(live, bufs) && s in bufs
    ensures AllHeld(matrices, live - {bufs[s]}) && BuffersLive(live - {bufs[s]}, bufs - {s})
    ensures forall attn :: AllCurrent([], attn, live - {bufs[s]}, bufs - {s})
  {
  }

  lemma BufferInstalled(bufs: Buffers, s: Slot, a: Addr, live: Live)
    requires BuffersLive(live, bufs) && a in live && a.n != 0 && live[a].payload == Buffer(s)
    ensures BuffersLive(live, bufs[s := a])
  {
  }

  /** Is this one of the buffers of the attention pool and of a KV cache with so many layers? */
  predicate InAttention(s: Slot, layers: nat) {
    match s
    case KvK(i) => i < layers
    case KvV(i) => i < layers
    case _ => !s.InMatmulPool()
  }

  /** Everything KVCacheInit allocates, in its order. */
  function AttnSlots(layers: nat): seq<Slot> {
    KvSlots(layers) + [AQ, ADst, AScores, AKTok, AVTok, ACos, ASin, HCos, HSin]
  }

  function KvSlots(layers: nat): seq<Slot> {
    if layers == 0 then [] else KvSlots(layers - 1) + [KvK(layers - 1), KvV(layers - 1)]
  }

  lemma {:induction false} KvSlotsAre(layers: nat, s: Slot)
    ensures s in KvSlots(layers) <==> (s.KvK? || s.KvV?) && InAttention(s, layers)
  {
    if layers > 0 { KvSlotsAre(layers - 1, s); }
  }

  /** No slot is allocated twice. */
  lemma {:induction false} KvSlotsDistinct(layers: nat)
    ensures forall i, j :: 0 <= i < j < |KvSlots(layers)| ==> KvSlots(layers)[i] != KvSlots(layers)[j]
  {
    if layers > 0 {
      KvSlotsDistinct(layers - 1);
      var before := KvSlots(layers - 1);
      forall i | 0 <= i < |before| ensures before[i] != KvK(layers - 1) && before[i] != KvV(layers - 1) {
        KvSlotsAre(layers - 1, before[i]);
      }
    }
  }

  lemma AttnSlotsDistinct(layers: nat)
    ensures forall i, j :: 0 <= i < j < |AttnSlots(layers)| ==> AttnSlots(layers)[i] != AttnSlots(layers)[j]
  {
    var kv := KvSlots(layers);
    KvSlotsDistinct(layers);
    forall i | 0 <= i < |kv| ensures kv[i].KvK? || kv[i].KvV? { KvSlotsAre(layers, kv[i]); }
    assert forall i :: 0 <= i < |kv| ==> AttnSlots(layers)[i] == kv[i];
  }

  lemma AttnSlotsAre(layers: nat, s: Slot)
    ensures s in AttnSlots(layers) <==> InAttention(s, layers)
  {
    KvSlotsAre(layers, s);
  }

  /** Weights and temporary blocks are not touched. */
  ghost predicate OthersStay(live: Live, live': Live) {
    forall a <- live :: !live[a].payload.Buffer? ==> a in live' && live'[a] == live[a]
  }

  lemma OthersStayTwice(a: Live, b: Live, c: Live)
    requires OthersStay(a, b) && OthersStay(b, c)
    ensures OthersStay(a, c)
  {
    forall x <- a ensures !a[x].payload.Buffer? ==> x in c && c[x] == a[x] {
      if !a[x].payload.Buffer? { assert x in b && b[x] == a[x]; }
    }
  }

  lemma KvCapturable(layer: nat, layers: nat, live: Live, bufs: Buffers)
    requires layer < layers && BuffersLive(live, bufs)
    requires forall s: Slot :: InAttention(s, layers) ==> s in bufs
    ensures KvK(layer) in bufs && KvV(layer) in bufs
    ensures forall a, b, c, d, e, f ::
      Capturable(AttnKey(bufs[KvK(layer)], bufs[KvV(layer)], a, b, c, d, e, f), live, bufs)
  {
    assert InAttention(KvK(layer), layers) && InAttention(KvV(layer), layers);
    assert InAttention(AQ, layers) && InAttention(AScores, layers) && InAttention(ADst, layers);
  }

  /** What the matmul pool holds of a token: is the hidden state on the device, how long is it, and how long is the snapshot
      that the experts read? */
  datatype Hidden = Hidden(resident: bool, len: int, moe: int)

  const NO_HIDDEN: Hidden := Hidden(false, 0, 0)

  function CapOf(caps: map<Slot, int>, s: Slot): int {
    if s in caps then caps[s] else 0
  }

  /** No capacity goes down. */
  ghost predicate NoneSmaller(was: map<Slot, int>, now: map<Slot, int>) {
    forall s :: CapOf(now, s) >= CapOf(was, s)
  }

  /** Whatever has a capacity has its buffers. */
  ghost predicate Backed(bufs: Buffers, caps: map<Slot, int>) {
    && (CapOf(caps, DVec) > 0 ==> DVec in bufs && HVec in bufs)
    && (CapOf(caps, DOut) > 0 ==> DOut in bufs && HOut in bufs)
    && (CapOf(caps, DAux) > 0 ==> DAux in bufs)
    && (CapOf(caps, DResid) > 0 ==> DResid in bufs)
    && (CapOf(caps, DMoeH) > 0 ==> DMoeH in bufs)
  }

  /** The hidden state fits its buffer, and so does the snapshot. */
  ghost predicate HiddenBacked(bufs: Buffers, caps: map<Slot, int>, hidden: Hidden) {
    && (hidden.resident ==> DResid in bufs && hidden.len <= CapOf(caps, DResid))
    && (hidden.moe > 0 ==> DMoeH in bufs && hidden.moe <= CapOf(caps, DMoeH))
  }

  /** What the operations rely on between calls. */
  ghost predicate BuffersReady(bufs: Buffers, caps: map<Slot, int>, hidden: Hidden, kvReady: bool, kvLayers: nat) {
    && Backed(bufs, caps)
    && HiddenBacked(bufs, caps, hidden)
    && (kvReady ==> forall s: Slot :: InAttention(s, kvLayers) ==> s in bufs)
  }

  /** Nothing but the buffer of this slot changed. */
  ghost predicate OnlySlot(host: Slot, live: Live, bufs: Buffers, live': Live, bufs': Buffers) {
    && (forall s :: s != host ==> (s in bufs' <==> s in bufs) && (s in bufs' ==> bufs'[s] == bufs[s]))
    && (forall a <- live :: live[a].payload != Buffer(host) ==> a in live' && live'[a] == live[a])
  }

  lemma SlotStays(host: Slot, live: Live, bufs: Buffers)
    ensures OnlySlot(host, live, bufs, live, bufs)
  {
  }

  /** A new block for a slot, in place of the one it had. */
  lemma SlotMoved(host: Slot, live: Live, bufs: Buffers, mid: Live, a: Addr)
    requires mid - {a} == live && a !in live && (host in bufs ==> bufs[host] in mid && mid[bufs[host]].payload == Buffer(host) && bufs[host] != a)
    ensures OnlySlot(host, live, bufs, if host in bufs then mid - {bufs[host]} else mid, bufs[host := a])
  {
    assert forall x :: x in live ==> x in mid - {a} && (mid - {a})[x] == mid[x];
  }

  /** The buffers that are left when attention pool and KV cache are gone. */
  ghost predicate OnlyMatmulPool(was: Buffers, now: Buffers) {
    now == map s | s in was && s.InMatmulPool() :: was[s]
  }

  ghost predicate SamePool(a: Buffers, b: Buffers) {
    forall s: Slot :: s.InMatmulPool() ==> (s in a <==> s in b)
  }

  /** Replacing attention pool and KV cache leaves the operations' other needs alone. */
  lemma StillReady(a: Buffers, b: Buffers, caps: map<Slot, int>, hidden: Hidden, kvReady: bool, kvLayers: nat, layers: nat)
    requires BuffersReady(a, caps, hidden, kvReady, kvLayers) && SamePool(a, b)
    ensures BuffersReady(b, caps, hidden, false, layers)
    ensures (forall s: Slot :: InAttention(s, layers) ==> s in b) ==> BuffersReady(b, caps, hidden, true, layers)
  {
  }

  lemma TemporaryStays(live: Live, live': Live, a: Addr)
    requires OthersStay(live, live') && a in live && live[a].payload == Temporary
    ensures a in live' && live'[a].payload == Temporary
  {
  }

  lemma AllStay(live: Live)
    ensures OthersStay(live, live)
  {
  }

  /** More buffers and a larger one do not disturb what is ready. */
  lemma ReadyGrown(bufs: Buffers, caps: map<Slot, int>, bufs': Buffers, caps': map<Slot, int>, dev: Slot, host: Option<Slot>, n: int,
                   rc: int, hidden: Hidden, kvReady: bool, kvLayers: nat)
    requires BuffersReady(bufs, caps, hidden, kvReady, kvLayers) && bufs.Keys <= bufs'.Keys && n > CapOf(caps, dev)
    requires if rc == 0 then dev in bufs' && (host.Some? ==> host.value in bufs') && caps' == caps[dev := n] else caps' == caps
    requires dev in {DVec, DOut, DAux, DResid, DMoeH} && (dev == DVec ==> host == Some(HVec)) && (dev == DOut ==> host == Some(HOut))
    ensures BuffersReady(bufs', caps', hidden, kvReady, kvLayers)
  {
    assert forall s: Slot :: s in bufs ==> s in bufs';
  }

  lemma ReadyMore(bufs: Buffers, bufs': Buffers, caps: map<Slot, int>, hidden: Hidden, kvReady: bool, kvLayers: nat)
    requires BuffersReady(bufs, caps, hidden, kvReady, kvLayers) && bufs.Keys <= bufs'.Keys
    ensures BuffersReady(bufs', caps, hidden, kvReady, kvLayers)
  {
    assert forall s: Slot :: s in bufs ==> s in bufs';
  }

  /** Forgetting the hidden state or the snapshot asks for less. */
  lemma ReadyWithout(bufs: Buffers, caps: map<Slot, int>, hidden: Hidden, kvReady: bool, kvLayers: nat)
    requires BuffersReady(bufs, caps, hidden, kvReady, kvLayers)
    ensures BuffersReady(bufs, caps, hidden.(resident := false, len := 0), kvReady, kvLayers)
    ensures BuffersReady(bufs, caps, hidden.(resident := false), kvReady, kvLayers)
    ensures BuffersReady(bufs, caps, hidden.(moe := 0), kvReady, kvLayers)
    ensures BuffersReady(bufs, caps, NO_HIDDEN, kvReady, kvLayers)
  {
  }

  /** Everything an operation uses is there once its pools are ensured. */
  lemma UsesReady(op: Op, on: bool, bufs: Buffers, caps: map<Slot, int>, hidden: Hidden, kvReady: bool, kvLayers: nat)
    requires BuffersReady(bufs, caps, hidden, kvReady, kvLayers) && (on && op.Qkv? ==> hidden.resident) && (op.Qkv? ==> kvReady)
    requires op.NeedsVectors() ==> {DVec, HVec, DOut, HOut} <= bufs.Keys && 0 < op.Cols()
    requires op.Ffn? || op.Residual? || op.MoeFfn? || op.MoeExpert? ==> DAux in bufs
    requires op.NeedsResid() ==> DResid in bufs && HResid in bufs
    requires op.NeedsResident() ==> hidden.resident
    requires op.AttnOutNorm? || op.MoeNorm? ==> DMoeH in bufs
    requires (op.MoeMatVec? ==> hidden.moe == op.cols) && (op.MoeFfn? || op.MoeExpert? ==> hidden.moe == op.embd)
    ensures forall s: Slot :: op.Uses(s, on) ==> s in bufs
  {
    forall s: Slot | op.Uses(s, on) ensures s in bufs {
      if op.Qkv? && !s.InMatmulPool() { assert InAttention(s, kvLayers); }
    }
  }

  lemma AllHeldWith(matrices: map<Key, Mat>, k: Key, m: Mat, live: Live)
    requires AllHeld(matrices, live) && Holds(k, m, live)
    ensures AllHeld(matrices[k := m], live)
  {
  }

  lemma NothingEvicted(a: Snapshot)
    requires (forall k <- a.matrices :: k in a.order) && (forall k <- a.size :: k in a.order)
    ensures OnlyEvicted(a, a)
  {
  }

  lemma OneEvicted(a: Snapshot, b: Snapshot)
    requires a.order != [] && (forall k :: k in a.order <==> k in a.matrices) && a.size.Keys == a.matrices.Keys
    requires var last := a.order[|a.order| - 1];
      && b.order == a.order[..|a.order| - 1] && last !in b.order
      && b.size == a.size - {last} && b.matrices == a.matrices - {last}
      && Holds(last, a.matrices[last], a.live) && b.live == a.live - {a.matrices[last].ptr}
    requires b.evictions == a.evictions + 1 && b.graphs == [] && b.layerGraphs == []
    ensures OnlyEvicted(a, b)
  {
    var last := a.order[|a.order| - 1];
    assert a.order == b.order + [last];
    assert forall k :: k in a.order && k != last ==> k in b.order;
    RestOf(a.matrices, last, b.order);
    RestOf(a.size, last, b.order);
  }

  lemma RestOf<V>(m: map<Key, V>, last: Key, order: seq<Key>)
    requires last !in order && forall k :: k in m && k != last ==> k in order
    ensures m - {last} == map k | k in m && k in order :: m[k]
  {
  }

  lemma EvictedTwice(a: Snapshot, b: Snapshot, c: Snapshot)
    requires OnlyEvicted(a, b) && OnlyEvicted(b, c)
    ensures OnlyEvicted(a, c)
  {
    assert forall k <- c.order :: k in b.order;
  }

  lemma SumAfterEviction(a: Snapshot, b: Snapshot, bytes: int)
    requires OnlyEvicted(a, b) && WellKept(b.order, b.size, bytes) && forall k <- a.order :: k in a.size
    ensures bytes == Sum(a.order[..|b.order|], a.size)
  {
    assert a.order[..|b.order|] == b.order;
    TotalAgrees(b.order, b.size, a.size);
  }

  /** Freeing the block of one weight touches no other weight, no buffer and no attention graph. */
  lemma WeightFreed(matrices: map<Key, Mat>, live: Live, bufs: Buffers, attnGraphs: seq<Graph>, k: Key)
    requires AllHeld(matrices, live) && BuffersLive(live, bufs) && AllCurrent(attnGraphs, true, live, bufs)
    requires k in matrices
    ensures var rest := live - {matrices[k].ptr};
      Holds(k, matrices[k], live) &&
      AllHeld(matrices - {k}, rest) && BuffersLive(rest, bufs) && AllCurrent(attnGraphs, true, rest, bufs)
  {
    AttnGraphsStay(attnGraphs, live, bufs, live - {matrices[k].ptr}, bufs);
  }

  datatype Launch =
    | Replayed(key: GraphKey, exec: seq<Ref>, ptrs: seq<Addr>)
    | Direct(ptrs: seq<Addr>)
    | Refused(code: int)

  /** The fused operations, with what decides their weights, buffers and graph keys. Weights come in the
      order in which the operation ensures them. */
  datatype Op =
    | MatVec(rows: int, cols: int, code: int, sameVec: bool)
    | Ffn(embd: int, ffn: int, sameVec: bool)
    | Residual(embd: int, attnDim: int, ffn: int, postAttn: bool, postFfn: bool, skipAttn: bool, keepResid: bool)
    | Logits(embd: int, vocab: int)
    | Qkv(embd: int, nHeads: int, nKvHeads: int, headDim: int, qNorm: bool, kNorm: bool, ropeMode: int)
    | AttnOutNorm(embd: int, attnDim: int)
    | MoeNorm(embd: int)
    | MoeMatVec(rows: int, cols: int)
    | MoeFfn(embd: int, ffn: int)
    | MoeExpert(embd: int, ffn: int)
    | LayerNormLogits(embd: int, vocab: int)
    | LayerNormResid(embd: int)
    | AddHost(embd: int)
    | EmbedGather(vocab: int, embd: int)
  {
    /** Vectors of the matmul pool. */
    predicate NeedsVectors() { !MoeNorm? && !EmbedGather? }

    /** Does its input have to be the resident hidden state? */
    predicate NeedsResident() {
      Logits? || MoeNorm? || MoeExpert? || LayerNormLogits? || LayerNormResid? || AddHost?
    }

    /** Does it need a residual buffer of its own size? */
    predicate NeedsResid() { Residual? || AttnOutNorm? || EmbedGather? }

    /** The others, those of mixture-of-experts layers and layer norms among them, are never captured. */
    predicate Graphed() {
      MatVec? || Ffn? || Residual? || Logits? || Qkv?
    }

    function Arity(resident: bool): nat {
      match this
      case MatVec(_, _, _, _) => 1
      case Ffn(_, _, _) => 3
      case Residual(_, _, _, postAttn, postFfn, _, _) => 5 + One(postAttn) + One(postFfn)
      case Logits(_, _) => 2
      case Qkv(_, _, _, _, qNorm, kNorm, _) => 3 + One(qNorm) + One(kNorm) + One(resident)
      case AttnOutNorm(_, _) => 2
      case MoeNorm(_) => 1
      case MoeMatVec(_, _) => 1
      case MoeFfn(_, _) => 3
      case MoeExpert(_, _) => 3
      case LayerNormLogits(_, _) => 3
      case LayerNormResid(_) => 2
      case AddHost(_) => 0
      case EmbedGather(_, _) => 1
    }

    /** The weights in the order in which the operation ensures them. */
    function Wants(resident: bool): (wants: seq<Want>)
      ensures |wants| == Arity(resident)
    {
      match this
      case MatVec(rows, cols, _, _) => [Want(Matrix, rows, cols)]
      case Ffn(embd, ffn, _) => [Want(Gate, ffn, embd), Want(Up, ffn, embd), Want(Down, embd, ffn)]
      case Residual(embd, attnDim, ffn, postAttn, postFfn, _, _) =>
        [Want(Wo, embd, attnDim), Want(FfnNorm, embd, 1)]
        + (if postAttn then [Want(PostAttnNorm, embd, 1)] else [])
        + (if postFfn then [Want(PostFfnNorm, embd, 1)] else [])
        + [Want(Gate, ffn, embd), Want(Up, ffn, embd), Want(Down, embd, ffn)]
      case Logits(embd, vocab) => [Want(OutNorm, embd, 1), Want(Head, vocab, embd)]
      case Qkv(embd, nHeads, nKvHeads, headDim, qNorm, kNorm, _) =>
        [Want(Wq, nHeads * headDim, embd), Want(Wk, nKvHeads * headDim, embd), Want(Wv, nKvHeads * headDim, embd)]
        + (if qNorm then [Want(QNorm, headDim, 1)] else [])
        + (if kNorm then [Want(KNorm, headDim, 1)] else [])
        + (if resident then [Want(AttnNorm, embd, 1)] else [])
      case AttnOutNorm(embd, attnDim) => [Want(Wo, embd, attnDim), Want(FfnNorm, embd, 1)]
      case MoeNorm(embd) => [Want(FfnNorm, embd, 1)]
      case MoeMatVec(rows, cols) => [Want(Matrix, rows, cols)]
      case MoeFfn(embd, ffn) => [Want(Gate, ffn, embd), Want(Up, ffn, embd), Want(Down, embd, ffn)]
      case MoeExpert(embd, ffn) => [Want(Gate, ffn, embd), Want(Up, ffn, embd), Want(Down, embd, ffn)]
      case LayerNormLogits(embd, vocab) => [Want(OutNorm, embd, 1), Want(OutBias, embd, 1), Want(Head, vocab, embd)]
      case LayerNormResid(embd) => [Want(OutNorm, embd, 1), Want(OutBias, embd, 1)]
      case AddHost(_) => []
      case EmbedGather(vocab, embd) => [Want(Table, vocab, embd)]
    }

    /** No operation holds more weights than the cache protects. */
    lemma ArityIsProtected(resident: bool)
      ensures Arity(resident) <= 8
    {
    }

    function Rows(): int {
      match this
      case MatVec(rows, _, _, _) => rows
      case Ffn(embd, ffn, _) => Max(ffn, embd)
      case Residual(embd, attnDim, ffn, _, _, _, _) => Max(Max(ffn, embd), attnDim)
      case Logits(_, vocab) => vocab
      case Qkv(_, nHeads, nKvHeads, headDim, _, _, _) => Max(nHeads * headDim, nKvHeads * headDim)
      case AttnOutNorm(embd, attnDim) => Max(embd, attnDim)
      case MoeNorm(_) => 0
      case MoeMatVec(rows, _) => rows
      case MoeFfn(embd, ffn) => Max(ffn, embd)
      case MoeExpert(embd, ffn) => Max(ffn, embd)
      case LayerNormLogits(_, vocab) => vocab
      case LayerNormResid(embd) => embd
      case AddHost(embd) => embd
      case EmbedGather(_, _) => 0
    }

    function Cols(): int {
      match this
      case MatVec(_, cols, _, _) => cols
      case Ffn(embd, _, _) => embd
      case Residual(embd, attnDim, _, _, _, _, _) => Max(embd, attnDim)
      case Logits(embd, _) => embd
      case Qkv(embd, nHeads, _, headDim, _, _, _) => Max(embd, nHeads * headDim)
      case AttnOutNorm(embd, attnDim) => Max(embd, attnDim)
      case MoeNorm(_) => 0
      case MoeMatVec(_, cols) => cols
      case MoeFfn(embd, _) => embd
      case MoeExpert(embd, _) => embd
      case LayerNormLogits(embd, _) => embd
      case LayerNormResid(embd) => embd
      case AddHost(embd) => embd
      case EmbedGather(_, _) => 0
    }

    /** The graph key built from the pointers. */
    function KeyOf(ptrs: seq<Addr>, resident: bool): GraphKey
      requires |ptrs| == Arity(resident) && Graphed()
    {
      match this
      case MatVec(rows, cols, code, sameVec) => MatmulKey(ptrs[0], rows, cols, code, sameVec)
      case Ffn(embd, ffn, sameVec) => FfnKey(ptrs[0], ptrs[1], ptrs[2], embd, ffn, sameVec)
      case Residual(embd, attnDim, ffn, postAttn, postFfn, skipAttn, keepResid) =>
        var f := 2 + One(postAttn) + One(postFfn);
        ResidualKey(ptrs[0], ptrs[1], if postAttn then ptrs[2] else NULL, if postFfn then ptrs[f - 1] else NULL,
                    ptrs[f], ptrs[f + 1], ptrs[f + 2], embd, attnDim, ffn, skipAttn, resident, keepResid)
      case Logits(embd, vocab) => LogitsKey(ptrs[1], ptrs[0], embd, vocab)
      case Qkv(embd, nHeads, nKvHeads, headDim, qNorm, kNorm, ropeMode) =>
        QkvKey(ptrs[0], ptrs[1], ptrs[2], if qNorm then ptrs[3] else NULL, if kNorm then ptrs[3 + One(qNorm)] else NULL,
               if resident then ptrs[3 + One(qNorm) + One(kNorm)] else NULL,
               embd, nHeads, nKvHeads, headDim, resident, ropeMode)
    }

    /** Does the operation embed this buffer? */
    predicate Uses(s: Slot, resident: bool) {
      match s
      case DVec => NeedsVectors()
      case HVec => NeedsVectors()
      case DOut => NeedsVectors()
      case HOut => NeedsVectors()
      case DAux => Ffn? || Residual? || MoeFfn? || MoeExpert?
      case HResid => NeedsResid()
      case DResid => NeedsResid() || NeedsResident() || (Qkv? && resident)
      case DMoeH => AttnOutNorm? || MoeNorm? || MoeMatVec? || MoeFfn? || MoeExpert?
      case _ => Qkv? && !s.KvK? && !s.KvV?
    }

    /** The capture takes its pointers from the operation's weights and its buffers from those it uses. */
    lemma OperandsAreOwn(ptrs: seq<Addr>, resident: bool, i: nat)
      requires |ptrs| == Arity(resident) && Graphed() && i < |Operands(KeyOf(ptrs, resident))|
      ensures match Operands(KeyOf(ptrs, resident))[i]
              case Skip => true
              case Ptr(a) => a in ptrs
              case Buf(s) => Uses(s, resident)
    {
      if Residual? {
        ResidualOperandsAreOwn(ptrs, resident, i);
      }
    }

    lemma ResidualOperandsAreOwn(ptrs: seq<Addr>, resident: bool, i: nat)
      requires Residual? && |ptrs| == Arity(resident) && i < |Operands(KeyOf(ptrs, resident))|
      ensures match Operands(KeyOf(ptrs, resident))[i]
              case Skip => true
              case Ptr(a) => a in ptrs
              case Buf(s) => Uses(s, resident)
    {
      var key := KeyOf(ptrs, resident);
      assert key.wo in ptrs && key.ffnNorm in ptrs && key.gate in ptrs && key.up in ptrs && key.down in ptrs;
    }

    /** With its weights live and its buffers there, the operation can be captured. */
    lemma CanCapture(ptrs: seq<Addr>, resident: bool, live: Live, bufs: Buffers)
      requires |ptrs| == Arity(resident) && Graphed() && BuffersLive(live, bufs)
      requires forall p <- ptrs :: p in live && live[p].payload.Weight?
      requires forall s: Slot :: Uses(s, resident) ==> s in bufs
      ensures Capturable(KeyOf(ptrs, resident), live, bufs)
      ensures !KeyOf(ptrs, resident).AttnKey?
    {
      hide Operands, Uses;
      var ops := Operands(KeyOf(ptrs, resident));
      forall o <- ops ensures CanEmbed(o, false, live, bufs) {
        var i :| 0 <= i < |ops| && ops[i] == o;
        OperandsAreOwn(ptrs, resident, i);
      }
    }
  }

  /** All sizes are positive; an embedding comes in blocks of 32. */
  predicate Positive(op: Op) {
    match op
    case MatVec(rows, cols, _, _) => rows > 0 && cols > 0
    case Ffn(embd, ffn, _) => embd > 0 && ffn > 0
    case Residual(embd, attnDim, ffn, _, _, _, _) => embd > 0 && attnDim > 0 && ffn > 0
    case Logits(embd, vocab) => embd > 0 && vocab > 0
    case Qkv(embd, nHeads, nKvHeads, headDim, _, _, _) => embd > 0 && nHeads > 0 && nKvHeads > 0 && headDim > 0
    case AttnOutNorm(embd, attnDim) => embd > 0 && attnDim > 0
    case MoeNorm(embd) => embd > 0
    case MoeMatVec(rows, cols) => rows > 0 && cols > 0
    case MoeFfn(embd, ffn) => embd > 0 && ffn > 0
    case MoeExpert(embd, ffn) => embd > 0 && ffn > 0
    case LayerNormLogits(embd, vocab) => embd > 0 && vocab > 0
    case LayerNormResid(embd) => embd > 0
    case AddHost(embd) => embd > 0
    case EmbedGather(_, embd) => embd > 0 && embd % 32 == 0
  }

  lemma PositiveSizes(op: Op)
    requires Positive(op)
    ensures op.NeedsVectors() ==> op.Rows() > 0 && op.Cols() > 0
    ensures op.Ffn? || op.Residual? || op.MoeFfn? || op.MoeExpert? ==> op.ffn > 0
    ensures op.NeedsResid() || op.AttnOutNorm? || op.MoeNorm? ==> op.embd > 0
  {
    if op.Qkv? {
      assert op.nHeads * op.headDim > 0;
    }
  }

  /** What an operation asks of the hidden state before it touches the pools. `on`: its input is the resident one. */
  predicate StateFits(op: Op, on: bool, hidden: Hidden, kvReady: bool) {
    match op
    case Residual(embd, _, _, _, _, _, _) => on ==> hidden.len == embd
    case AttnOutNorm(embd, _) => on ==> hidden.len == embd
    case Qkv(embd, _, _, _, _, _, _) => kvReady && (on ==> hidden.len == embd)
    case Logits(embd, _) => hidden.resident && hidden.len == embd
    case MoeNorm(embd) => 0 < embd && hidden.resident && hidden.len == embd
    case MoeMatVec(_, cols) => hidden.moe == cols
    case MoeFfn(embd, _) => hidden.moe == embd
    case MoeExpert(embd, _) => hidden.resident && hidden.len == embd && hidden.moe == embd
    case LayerNormLogits(embd, _) => hidden.resident && hidden.len == embd
    case LayerNormResid(embd) => hidden.resident && hidden.len == embd
    case AddHost(embd) => hidden.resident && hidden.len == embd
    case _ => true
  }

  /** The pools keep what fits: where a residual of the operation's length is resident it stays. */
  lemma StillFits(op: Op, on: bool, was: Hidden, now: Hidden, kvReady: bool)
    requires StateFits(op, on, was, kvReady) && (on ==> was.resident)
    requires (op.NeedsResid() ==> was.resident && was.len == op.embd) ==> now.resident == was.resident && now.len == was.len
    requires !op.AttnOutNorm? && !op.MoeNorm? ==> now.moe == was.moe
    requires op.Residual? && was == NO_HIDDEN ==> now == NO_HIDDEN
    ensures StateFits(op, on, now, kvReady) && (on && !op.EmbedGather? ==> now.resident) && HiddenKept(op, on, was, now)
  {
  }

  /** Vectors and auxiliary buffer are there and large enough. */
  ghost predicate VectorsThere(op: Op, bufs: Buffers, caps: map<Slot, int>) {
    && (op.NeedsVectors() ==>
        {DVec, HVec, DOut, HOut} <= bufs.Keys && 0 < op.Cols() <= CapOf(caps, DVec) && op.Rows() <= CapOf(caps, DOut))
    && (op.Ffn? || op.Residual? || op.MoeFfn? || op.MoeExpert? ==> DAux in bufs && op.ffn <= CapOf(caps, DAux))
  }

  /** Residual and snapshot too. */
  ghost predicate StatesThere(op: Op, bufs: Buffers, caps: map<Slot, int>) {
    && (op.NeedsResid() ==> DResid in bufs && HResid in bufs && op.embd <= CapOf(caps, DResid))
    && (op.AttnOutNorm? || op.MoeNorm? ==> DMoeH in bufs && op.embd <= CapOf(caps, DMoeH))
  }

  lemma VectorsStay(op: Op, bufs: Buffers, caps: map<Slot, int>, bufs': Buffers, caps': map<Slot, int>)
    requires VectorsThere(op, bufs, caps) && bufs.Keys <= bufs'.Keys && NoneSmaller(caps, caps')
    ensures VectorsThere(op, bufs', caps')
  {
    hide Op.Rows, Op.Cols;
    assert CapOf(caps', DVec) >= CapOf(caps, DVec) && CapOf(caps', DOut) >= CapOf(caps, DOut) && CapOf(caps', DAux) >= CapOf(caps, DAux);
  }

  /** Room for what the operation leaves behind. */
  predicate CanSettle(op: Op, bufs: Buffers, caps: map<Slot, int>) {
    && (op.AttnOutNorm? || op.EmbedGather? ==> DResid in bufs && op.embd <= CapOf(caps, DResid))
    && (op.AttnOutNorm? || op.MoeNorm? ==> DMoeH in bufs && op.embd <= CapOf(caps, DMoeH))
  }

  /** The hidden state that a launch leaves. */
  predicate Settled(op: Op, was: Hidden, now: Hidden) {
    match op
    case EmbedGather(_, embd) => now == Hidden(true, embd, was.moe)
    case AttnOutNorm(embd, _) => now == Hidden(true, embd, embd)
    case MoeNorm(embd) => now == Hidden(was.resident, was.len, embd)
    case _ => now == was
  }

  /** Growing the pools leaves it to the operations that read it. */
  ghost predicate HiddenKept(op: Op, on: bool, was: Hidden, now: Hidden) {
    && ((on && !op.EmbedGather?) || !op.NeedsResid() ==> now.resident == was.resident && now.len == was.len)
    && (!op.AttnOutNorm? && !op.MoeNorm? ==> now.moe == was.moe)
    && (op.Residual? && was == NO_HIDDEN ==> now == NO_HIDDEN)
  }

  /** The state an operation starts from: a residual operation that does not go on with the resident state ends it. */
  function Carried(op: Op, was: Hidden, host: bool): Hidden {
    if (op.Residual? || op.AttnOutNorm?) && (host || !was.resident) then NO_HIDDEN else was
  }

  lemma SettledFrom(op: Op, on: bool, start: Hidden, mid: Hidden, now: Hidden)
    requires HiddenKept(op, on, start, mid) && Settled(op, mid, now)
    requires op.Residual? && !on ==> start == NO_HIDDEN
    ensures Settled(op, start, now)
  {
  }

  /** Then everything the operation uses is there, in the size it needs. */
  lemma AllThere(op: Op, on: bool, bufs: Buffers, caps: map<Slot, int>, hidden: Hidden, kvReady: bool, kvLayers: nat)
    requires BuffersReady(bufs, caps, hidden, kvReady, kvLayers) && StateFits(op, on, hidden, kvReady) && (on && op.Qkv? ==> hidden.resident)
    requires VectorsThere(op, bufs, caps) && StatesThere(op, bufs, caps)
    ensures (forall s: Slot :: op.Uses(s, on) ==> s in bufs) && Roomy(op, caps)
  {
    UsesReady(op, on, bufs, caps, hidden, kvReady, kvLayers);
  }

  /** What an operation asks of the state: a KV cache for the projections, a hidden state of its length on the device for those
      that read it there, and a snapshot of its length for the experts. */
  predicate Fits(op: Op, hidden: Hidden, kvReady: bool, host: bool) {
    match op
    case Qkv(embd, _, _, _, _, _, _) => kvReady && (hidden.resident && !host ==> hidden.len == embd)
    case Residual(embd, _, _, _, _, _, _) => hidden.resident && !host ==> hidden.len == embd
    case AttnOutNorm(embd, _) => hidden.resident && !host ==> hidden.len == embd
    case Logits(embd, _) => hidden.resident && hidden.len == embd
    case MoeNorm(embd) => hidden.resident && hidden.len == embd
    case MoeMatVec(_, cols) => hidden.moe == cols
    case MoeFfn(embd, _) => hidden.moe == embd
    case MoeExpert(embd, _) => hidden.resident && hidden.len == embd && hidden.moe == embd
    case LayerNormLogits(embd, _) => hidden.resident && hidden.len == embd
    case LayerNormResid(embd) => hidden.resident && hidden.len == embd
    case AddHost(embd) => hidden.resident && hidden.len == embd
    case _ => true
  }

  /** Everything the launches read and write of the pools fits: vectors in, results out, the second half of a gated pair, the
      residual and the snapshot. */
  predicate Roomy(op: Op, caps: map<Slot, int>) {
    var vec, out, aux, resid, moe := CapOf(caps, DVec), CapOf(caps, DOut), CapOf(caps, DAux), CapOf(caps, DResid), CapOf(caps, DMoeH);
    match op
    case MatVec(rows, cols, _, _) => cols <= vec && rows <= out
    case Ffn(embd, ffn, _) => embd <= vec && embd <= out && ffn <= out && ffn <= aux
    case Residual(embd, attnDim, ffn, _, _, _, _) =>
      embd <= vec && attnDim <= vec && embd <= out && ffn <= out && ffn <= aux && embd <= resid
    case Logits(embd, vocab) => embd <= vec && vocab <= out && embd <= resid
    case Qkv(embd, nHeads, nKvHeads, headDim, _, _, _) =>
      embd <= vec && nHeads * headDim <= vec && nHeads * headDim <= out && nKvHeads * headDim <= out
    case AttnOutNorm(embd, attnDim) => attnDim <= vec && embd <= out && embd <= resid && embd <= moe
    case MoeNorm(embd) => embd <= resid && embd <= moe
    case MoeMatVec(rows, cols) => cols <= vec && rows <= out && cols <= moe
    case MoeFfn(embd, ffn) => embd <= vec && embd <= out && ffn <= out && ffn <= aux && embd <= moe
    case MoeExpert(embd, ffn) => embd <= vec && embd <= out && ffn <= out && ffn <= aux && embd <= moe && embd <= resid
    case LayerNormLogits(embd, vocab) => embd <= vec && vocab <= out && embd <= resid
    case LayerNormResid(embd) => embd <= vec && embd <= resid
    case AddHost(embd) => embd <= vec && embd <= resid
    case EmbedGather(_, embd) => embd <= resid
  }

  /** The key asks for this operation on these weights, each in its place; a norm that the layer lacks is null. */
  ghost predicate KeyFits(op: Op, on: bool, specs: seq<Spec>, ptrs: seq<Addr>, key: GraphKey) {
    match op
    case MatVec(rows, cols, code, sameVec) =>
      && key.MatmulKey? && key == MatmulKey(key.matrix, rows, cols, code, sameVec)
      && IsFor(specs, ptrs, Matrix, rows, cols, key.matrix)
    case Ffn(embd, ffn, sameVec) =>
      && key.FfnKey? && key == FfnKey(key.gate, key.up, key.down, embd, ffn, sameVec)
      && IsFor(specs, ptrs, Gate, ffn, embd, key.gate) && IsFor(specs, ptrs, Up, ffn, embd, key.up)
      && IsFor(specs, ptrs, Down, embd, ffn, key.down)
    case Residual(embd, attnDim, ffn, postAttn, postFfn, skipAttn, keepResid) =>
      && key.ResidualKey? && key == ResidualKey(key.wo, key.ffnNorm, key.postAttnNorm, key.postFfnNorm, key.gate, key.up, key.down,
                            embd, attnDim, ffn, skipAttn, on, keepResid)
      && IsFor(specs, ptrs, Wo, embd, attnDim, key.wo) && IsFor(specs, ptrs, FfnNorm, embd, 1, key.ffnNorm)
      && (if postAttn then IsFor(specs, ptrs, PostAttnNorm, embd, 1, key.postAttnNorm) else key.postAttnNorm == NULL)
      && (if postFfn then IsFor(specs, ptrs, PostFfnNorm, embd, 1, key.postFfnNorm) else key.postFfnNorm == NULL)
      && IsFor(specs, ptrs, Gate, ffn, embd, key.gate) && IsFor(specs, ptrs, Up, ffn, embd, key.up)
      && IsFor(specs, ptrs, Down, embd, ffn, key.down)
    case Logits(embd, vocab) =>
      && key.LogitsKey? && key == LogitsKey(key.head, key.outNorm, embd, vocab)
      && IsFor(specs, ptrs, Head, vocab, embd, key.head) && IsFor(specs, ptrs, OutNorm, embd, 1, key.outNorm)
    case Qkv(embd, nHeads, nKvHeads, headDim, qNorm, kNorm, ropeMode) =>
      && key.QkvKey? && key == QkvKey(key.wq, key.wk, key.wv, key.qNorm, key.kNorm, key.attnNorm, embd, nHeads, nKvHeads, headDim, on, ropeMode)
      && IsFor(specs, ptrs, Wq, nHeads * headDim, embd, key.wq) && IsFor(specs, ptrs, Wk, nKvHeads * headDim, embd, key.wk)
      && IsFor(specs, ptrs, Wv, nKvHeads * headDim, embd, key.wv)
      && (if qNorm then IsFor(specs, ptrs, QNorm, headDim, 1, key.qNorm) else key.qNorm == NULL)
      && (if kNorm then IsFor(specs, ptrs, KNorm, headDim, 1, key.kNorm) else key.kNorm == NULL)
      && (if on then IsFor(specs, ptrs, AttnNorm, embd, 1, key.attnNorm) else key.attnNorm == NULL)
    case _ => false
  }

  lemma PlacedAt(specs: seq<Spec>, wants: seq<Want>, ptrs: seq<Addr>, i: nat, want: Want)
    requires ServesAll(specs, wants) && |ptrs| == |specs| && i < |wants| && wants[i] == want
    ensures IsFor(specs, ptrs, want.role, want.rows, want.cols, ptrs[i])
  {
    assert Serves(specs[i], Want(want.role, want.rows, want.cols));
  }

  /** Every want is met by the pointer in its place. */
  lemma AllPlaced(specs: seq<Spec>, wants: seq<Want>, ptrs: seq<Addr>)
    requires ServesAll(specs, wants) && |ptrs| == |specs|
    ensures |wants| == |ptrs|
    ensures forall i :: 0 <= i < |wants| ==> IsFor(specs, ptrs, wants[i].role, wants[i].rows, wants[i].cols, ptrs[i])
  {
    hide IsFor, Serves;
    forall i | 0 <= i < |wants| ensures IsFor(specs, ptrs, wants[i].role, wants[i].rows, wants[i].cols, ptrs[i]) {
      PlacedAt(specs, wants, ptrs, i, wants[i]);
    }
  }

  /** The key that an operation builds fits it. */
  lemma KeyOfFits(op: Op, on: bool, specs: seq<Spec>, ptrs: seq<Addr>)
    requires op.Graphed() && ServesAll(specs, op.Wants(on)) && |ptrs| == |specs|
    ensures |ptrs| == op.Arity(on) && KeyFits(op, on, specs, ptrs, op.KeyOf(ptrs, on))
  {
    hide ServesAll, IsFor;
    var w := op.Wants(on);
    AllPlaced(specs, w, ptrs);
    if op.Residual? {
      ResidualKeyFits(op, on, specs, ptrs);
    } else if op.Qkv? {
      QkvKeyFits(op, on, specs, ptrs);
    } else if |w| > 1 {
      assert IsFor(specs, ptrs, w[0].role, w[0].rows, w[0].cols, ptrs[0]) && IsFor(specs, ptrs, w[1].role, w[1].rows, w[1].cols, ptrs[1]);
      if |w| > 2 { assert IsFor(specs, ptrs, w[2].role, w[2].rows, w[2].cols, ptrs[2]); }
    }
  }

  lemma KeyAlwaysFits(op: Op, on: bool, specs: seq<Spec>)
    requires ServesAll(specs, op.Wants(on))
    ensures forall ptrs :: |ptrs| == |specs| && op.Graphed() ==> |ptrs| == op.Arity(on) && KeyFits(op, on, specs, ptrs, op.KeyOf(ptrs, on))
  {
    hide ServesAll, KeyFits, Op.KeyOf, Op.Wants, Op.Arity;
    forall ptrs | |ptrs| == |specs| && op.Graphed()
      ensures |ptrs| == op.Arity(on) && KeyFits(op, on, specs, ptrs, op.KeyOf(ptrs, on))
    {
      KeyOfFits(op, on, specs, ptrs);
    }
  }

  lemma ResidualKeyFits(op: Op, on: bool, specs: seq<Spec>, ptrs: seq<Addr>)
    requires op.Residual? && ServesAll(specs, op.Wants(on)) && |ptrs| == |specs| == op.Arity(on)
    ensures KeyFits(op, on, specs, ptrs, op.KeyOf(ptrs, on))
  {
    hide ServesAll, IsFor;
    var w, f := op.Wants(on), 2 + One(op.postAttn) + One(op.postFfn);
    PlacedAt(specs, w, ptrs, 0, Want(Wo, op.embd, op.attnDim));
    PlacedAt(specs, w, ptrs, 1, Want(FfnNorm, op.embd, 1));
    if op.postAttn { PlacedAt(specs, w, ptrs, 2, Want(PostAttnNorm, op.embd, 1)); }
    if op.postFfn { PlacedAt(specs, w, ptrs, f - 1, Want(PostFfnNorm, op.embd, 1)); }
    PlacedAt(specs, w, ptrs, f, Want(Gate, op.ffn, op.embd));
    PlacedAt(specs, w, ptrs, f + 1, Want(Up, op.ffn, op.embd));
    PlacedAt(specs, w, ptrs, f + 2, Want(Down, op.embd, op.ffn));
  }

  lemma QkvKeyFits(op: Op, on: bool, specs: seq<Spec>, ptrs: seq<Addr>)
    requires op.Qkv? && ServesAll(specs, op.Wants(on)) && |ptrs| == |specs| == op.Arity(on)
    ensures KeyFits(op, on, specs, ptrs, op.KeyOf(ptrs, on))
  {
    hide ServesAll, IsFor;
    var w, n := op.Wants(on), 3 + One(op.qNorm);
    PlacedAt(specs, w, ptrs, 0, Want(Wq, op.nHeads * op.headDim, op.embd));
    PlacedAt(specs, w, ptrs, 1, Want(Wk, op.nKvHeads * op.headDim, op.embd));
    PlacedAt(specs, w, ptrs, 2, Want(Wv, op.nKvHeads * op.headDim, op.embd));
    if op.qNorm { PlacedAt(specs, w, ptrs, 3, Want(QNorm, op.headDim, 1)); }
    if op.kNorm { PlacedAt(specs, w, ptrs, n, Want(KNorm, op.headDim, 1)); }
    if on { PlacedAt(specs, w, ptrs, n + One(op.kNorm), Want(AttnNorm, op.embd, 1)); }
  }

  function One(b: bool): nat { if b then 1 else 0 }

  function Max(a: int, b: int): int { if a > b then a else b }

  /** Every pointer is live and still the upload of its own weight in its own shape. */
  ghost predicate EachHeld(specs: seq<Spec>, ptrs: seq<Addr>, live: Live) {
    |ptrs| == |specs| && forall i :: 0 <= i < |specs| ==> Holds(specs[i].key, Mat(ptrs[i], specs[i].shape), live)
  }

  /** One shape per key is necessary as well: where every live weight is the cached one, two shapes are not both live. */
  lemma HeldHasOneShape(specs: seq<Spec>, ptrs: seq<Addr>, matrices: map<Key, Mat>, bufs: Buffers, live: Live)
    requires EachHeld(specs, ptrs, live) && Loose(live, matrices, bufs) == {}
    ensures OneShapePerKey(specs)
  {
    forall i | 0 <= i < |specs| ensures specs[i].key in matrices && matrices[specs[i].key] == Mat(ptrs[i], specs[i].shape) {
      assert Holds(specs[i].key, Mat(ptrs[i], specs[i].shape), live);
      assert ptrs[i] !in Loose(live, matrices, bufs);
    }
  }

  lemma SameLength(specs: seq<Spec>, ptrs: seq<Addr>, live: Live)
    requires EachHeld(specs, ptrs, live)
    ensures |ptrs| == |specs|
  {
  }

  lemma ShapesAgree(specs: seq<Spec>, i: nat)
    requires OneShapePerKey(specs) && i < |specs|
    ensures forall j :: 0 <= j < i && specs[j].key == specs[i].key ==> specs[j].shape == specs[i].shape
  {
  }

  lemma WorkingSetHeld(specs: seq<Spec>, ptrs: seq<Addr>, matrices: map<Key, Mat>, live: Live)
    requires WorkingSet(specs, ptrs, matrices) && AllHeld(matrices, live)
    ensures EachHeld(specs, ptrs, live)
    ensures forall p <- ptrs :: p in live && live[p].payload.Weight?
  {
    forall p <- ptrs ensures p in live && live[p].payload.Weight? {
      var i :| 0 <= i < |ptrs| && ptrs[i] == p;
      assert Holds(specs[i].key, Mat(ptrs[i], specs[i].shape), live);
    }
  }

  class Backend {
    const mem: Memory

    // LRU bookkeeping, most recently used first
    var order: seq<Key>
    var size: map<Key, int>
    var bytes: int
    var maxEntries: int
    var maxBytes: int
    var evictions: nat

    // The twelve per-kind maps, as one map keyed by (kind, name)
    var matrices: map<Key, Mat>

    // Pools: current buffers and capacities
    var bufs: Buffers
    var caps: map<Slot, int>
    var kvReady: bool
    var kvLayers: nat
    var hidden: Hidden

    // Captured graphs
    var graphs: seq<Graph>
    var layerGraphs: seq<Graph>
    var attnGraphs: seq<Graph>

    ghost predicate Bookkeeping()
      reads this
    {
      Kept(order, size, bytes, matrices)
    }

    ghost predicate PointersLive()
      reads this, mem
    {
      && AllHeld(matrices, mem.live)
      && BuffersLive(mem.live, bufs)
      && AllCurrent(graphs, false, mem.live, bufs)
      && AllCurrent(layerGraphs, false, mem.live, bufs)
      && AllCurrent(attnGraphs, true, mem.live, bufs)
    }

    ghost predicate Valid()
      reads this, mem
    {
      Bookkeeping() && PointersLive()
    }

    /** Live blocks that neither the cache nor a pool owns. */
    ghost function Leaks(): set<Addr>
      reads this, mem
    {
      Loose(mem.live, matrices, bufs)
    }

    constructor (mem: Memory)
      ensures Valid() && this.mem == mem && order == [] && bufs == map[] && graphs == layerGraphs == attnGraphs == []
      ensures Ready() && !kvReady && hidden == NO_HIDDEN && Leaks() == mem.live.Keys
    {
      this.mem := mem;
      order, size, bytes, maxEntries, maxBytes, evictions := [], map[], 0, 0, 0, 0;
      matrices, bufs, caps, kvReady, kvLayers, hidden := map[], map[], map[], false, 0, NO_HIDDEN;
      graphs, layerGraphs, attnGraphs := [], [], [];
    }

    method ClearMatmulGraphs()
      modifies this`graphs, this`layerGraphs
      ensures graphs == [] && layerGraphs == []
    {
      graphs, layerGraphs := [], [];
    }

    // -------------------------------------------------------------------------------
    // LRU operations
    // -------------------------------------------------------------------------------

    method TouchWeight(k: Key)
      requires Bookkeeping()
      modifies this`order
      ensures Bookkeeping()
      ensures order == if k in old(matrices) then [k] + Without(old(order), k) else old(order)
    {
      if k in size {
        UseKeeps(order, size, bytes, k);
        order := [k] + Without(order, k);
      }
    }

    /** Removes the bookkeeping of a matrix. */
    method UntrackWeight(k: Key)
      requires WellKept(order, size, bytes)
      modifies this`order, this`size, this`bytes
      ensures WellKept(order, size, bytes)
      ensures order == Without(old(order), k) && size == old(size) - {k}
    {
      if k in size {
        DropKeeps(order, size, bytes, k);
        bytes := bytes - size[k];
        order := Without(order, k);
        size := size - {k};
      } else {
        WithoutAbsent(order, k);
      }
    }

    /** Frees one cached matrix and everything that may embed its pointer. */
    method FreeWeight(k: Key) returns (found: bool)
      requires Valid()
      modifies this`order, this`size, this`bytes, this`matrices, this`graphs, this`layerGraphs, mem`live
      ensures Valid()
      ensures found <==> k in old(matrices)
      ensures order == Without(old(order), k) && matrices == old(matrices) - {k} && size == old(size) - {k}
      ensures if found then
          Holds(k, old(matrices[k]), old(mem.live)) &&
          graphs == [] && layerGraphs == [] && mem.live == old(mem.live) - {old(matrices[k].ptr)}
        else
          order == old(order) && graphs == old(graphs) && layerGraphs == old(layerGraphs) && mem.live == old(mem.live)
      ensures Leaks() <= old(Leaks())
    {
      hide AllHeld, BuffersLive, AllCurrent, WellKept, Without, Loose;
      found := k in matrices;
      var ptr := NULL;
      if found {
        ptr := matrices[k].ptr;
        matrices := matrices - {k};
      } else {
        AbsentStays(order, size, bytes, k);
        assert matrices - {k} == matrices && size - {k} == size;
      }
      UntrackWeight(k);
      assert matrices.Keys == size.Keys;
      if !found { return; }
      WeightFreed(old(matrices), mem.live, bufs, attnGraphs, k);
      LooseWeightFreed(mem.live, old(matrices), bufs, k);
      ClearMatmulGraphs();
      mem.Free(ptr);
      NoneCurrent(false, mem.live, bufs);
    }

    ghost function Now(): Snapshot
      reads this, mem
    {
      Snapshot(order, size, matrices, evictions, mem.live, graphs, layerGraphs)
    }

    method EvictOldestWeight() returns (freed: bool)
      requires Valid()
      modifies this`order, this`size, this`bytes, this`matrices, this`graphs, this`layerGraphs, this`evictions, mem`live
      ensures Valid() && OnlyEvicted(old(Now()), Now()) && Leaks() <= old(Leaks())
      ensures freed <==> |old(order)| > 8
      ensures order == if freed then old(order)[..|old(order)| - 1] else old(order)
    {
      hide AllHeld, BuffersLive, AllCurrent, WellKept, Without, OnlyEvicted, Loose;
      SameKeys(order, size, bytes);
      if |order| <= PROTECT {
        NothingEvicted(Now());
        return false;
      }
      var victim := order[|order| - 1];
      LastGoes(order, size, bytes);
      freed := FreeWeight(victim);
      if !freed { return; }
      evictions := evictions + 1;
      OneEvicted(old(Now()), Now());
    }

    predicate OverCaps()
      reads this
    {
      Exceeds(maxEntries, maxBytes, |order|, bytes)
    }

    /** Evicts from the tail while a cap is exceeded, and not a matrix more. */
    method EnforceWeightCaps()
      requires Valid()
      modifies this`order, this`size, this`bytes, this`matrices, this`graphs, this`layerGraphs, this`evictions, mem`live
      ensures Valid() && OnlyEvicted(old(Now()), Now()) && Leaks() <= old(Leaks())
      ensures order <= old(order)
      ensures |order| <= 8 || CapsHold(maxEntries, maxBytes, |order|, bytes)
      ensures |order| == |old(order)| || |order| >= 8
      ensures forall n :: |order| < n <= |old(order)| ==> !CapsHold(maxEntries, maxBytes, n, Sum(old(order)[..n], old(size)))
    {
      ExceedsIs(maxEntries, maxBytes);
      hide CapsHold;
      hide Backend.PointersLive, Backend.Leaks, WellKept, Without, OnlyEvicted, Exceeds, Total;
      SameKeys(order, size, bytes);
      NothingEvicted(Now());
      while OverCaps()
        invariant Valid() && OnlyEvicted(old(Now()), Now()) && Leaks() <= old(Leaks())
        invariant order <= old(order)
        invariant |order| == |old(order)| || |order| >= PROTECT
        invariant forall n :: |order| < n <= |old(order)| ==> Exceeds(maxEntries, maxBytes, n, Sum(old(order)[..n], old(size)))
        decreases |order|
      {
        SumAfterEviction(old(Now()), Now(), bytes);
        ghost var before := Now();
        var freed := EvictOldestWeight();
        EvictedTwice(old(Now()), before, Now());
        if !freed { return; }
      }
    }

    // -------------------------------------------------------------------------------
    // Uploads
    // -------------------------------------------------------------------------------

    /** Whatever was refused since then was memory. */
    ghost predicate OnlyShort(refusals: nat, shortages: nat)
      reads mem, this
    {
      mem.refusals - refusals == mem.shortages - shortages
    }

    /** Allocates and copies one weight. -1 is "out of memory", any other nonzero code another failure. */
    method Upload(k: Key, shape: Shape) returns (rc: int, ptr: Addr)
      modifies mem
      ensures rc == 0 ==> ptr !in old(mem.live) && ptr.n != 0 && NewWeight(old(mem.live), ptr, k, shape, mem.live)
      ensures rc != 0 ==> mem.live == old(mem.live)
      ensures if rc == 0 then mem.refusals == old(mem.refusals) else mem.refusals > old(mem.refusals)
      ensures OnlyShort(old(mem.refusals), old(mem.shortages)) <==> rc == 0 || rc == -1
      ensures mem.refusals - mem.shortages >= old(mem.refusals - mem.shortages)
    {
      ptr := NULL;
      var ok := mem.Ask();
      if !ok {
        rc :| rc < -1;
        return;
      }
      var block := mem.Alloc(false, Weight(k, shape));
      if block.None? { return -1, NULL; }
      ok := mem.Ask();
      if !ok {
        mem.Free(block.value);
        return -2, NULL;
      }
      return 0, block.value;
    }

    /** Uploads, evicting one matrix after another while memory is short. */
    method EvictRetry(k: Key, shape: Shape) returns (rc: int, ptr: Addr)
      requires Valid()
      modifies this`order, this`size, this`bytes, this`matrices, this`graphs, this`layerGraphs, this`evictions, mem
      ensures Valid()
      ensures order <= old(order) && (|order| == |old(order)| || |order| >= 8)
      ensures matrices == map x | x in old(matrices) && x in order :: old(matrices)[x]
      ensures rc == -1 ==> |order| <= 8
      ensures rc == 0 ==> Holds(k, Mat(ptr, shape), mem.live)
      ensures OnlyEvicted(old(Now()), if rc == 0 then Now().(live := mem.live - {ptr}) else Now())
      ensures Leaks() <= old(Leaks()) + if rc == 0 then {ptr} else {}
      ensures mem.refusals >= old(mem.refusals) && (rc != 0 ==> mem.refusals > old(mem.refusals))
      ensures rc == 0 || rc == -1 <==> OnlyShort(old(mem.refusals), old(mem.shortages))
    {
      hide AllHeld, BuffersLive, AllCurrent, WellKept, Without, OnlyEvicted, Loose;
      SameKeys(order, size, bytes);
      NothingEvicted(Now());
      rc, ptr := UploadHere(k, shape);
      while rc == -1
        invariant Valid()
        invariant order <= old(order) && (|order| == |old(order)| || |order| >= PROTECT)
        invariant matrices == map x | x in old(matrices) && x in order :: old(matrices)[x]
        invariant rc == 0 ==> Holds(k, Mat(ptr, shape), mem.live)
        invariant OnlyEvicted(old(Now()), if rc == 0 then Now().(live := mem.live - {ptr}) else Now())
        invariant Leaks() <= old(Leaks()) + if rc == 0 then {ptr} else {}
        invariant mem.refusals >= old(mem.refusals) && (rc != 0 ==> mem.refusals > old(mem.refusals))
        invariant rc == 0 || rc == -1 <==> OnlyShort(old(mem.refusals), old(mem.shortages))
        invariant mem.refusals - mem.shortages >= old(mem.refusals - mem.shortages)
        decreases |order|, rc == -1
      {
        ghost var before := Now();
        var freed := EvictOldestWeight();
        EvictedTwice(old(Now()), before, Now());
        EvictedMatrices(old(Now()), Now());
        if !freed { break; }
        rc, ptr := UploadHere(k, shape);
      }
    }

    /** Upload seen from the cache: it only adds a block. */
    method UploadHere(k: Key, shape: Shape) returns (rc: int, ptr: Addr)
      requires Valid()
      modifies mem
      ensures Valid()
      ensures rc == 0 ==> Holds(k, Mat(ptr, shape), mem.live) && mem.live - {ptr} == old(mem.live)
      ensures rc != 0 ==> mem.live == old(mem.live)
      ensures Leaks() <= old(Leaks()) + if rc == 0 then {ptr} else {}
      ensures if rc == 0 then mem.refusals == old(mem.refusals) else mem.refusals > old(mem.refusals)
      ensures OnlyShort(old(mem.refusals), old(mem.shortages)) <==> rc == 0 || rc == -1
      ensures mem.refusals - mem.shortages >= old(mem.refusals - mem.shortages)
    {
      hide AllHeld, BuffersLive, AllCurrent, Kept, Without, Loose;
      rc, ptr := Upload(k, shape);
      if rc == 0 {
        LooseAdded(old(mem.live), matrices, bufs, ptr, mem.live);
        BlockAdded(matrices, bufs, graphs, layerGraphs, attnGraphs, old(mem.live), mem.live);
      }
    }

    /** Records an uploaded matrix as most recently used, then enforces the caps. */
    method TrackWeight(k: Key, n: int)
      requires WellKept(order, size, bytes) && matrices.Keys == size.Keys + {k} && matrices[k].shape.bytes == n
      requires forall x <- matrices :: x != k ==> size[x] == matrices[x].shape.bytes
      requires PointersLive()
      modifies this`order, this`size, this`bytes, this`matrices, this`graphs, this`layerGraphs, this`evictions, mem`live
      ensures Valid()
      ensures UsedThenEvicted(old(order), k, order)
      ensures k in matrices && matrices == map x | x in old(matrices) && x in order :: old(matrices)[x]
      ensures |order| <= 8 || CapsHold(maxEntries, maxBytes, |order|, bytes)
      ensures mem.live.Keys <= old(mem.live.Keys) && Leaks() <= old(Leaks())
    {
      hide AllHeld, BuffersLive, AllCurrent, WellKept, Without, OnlyEvicted, Loose;
      TrackKeeps(order, size, bytes, k, n);
      bytes := bytes + n - if k in size then size[k] else 0;
      order := [k] + Without(order, k);
      size := size[k := n];
      label used:
      EnforceWeightCaps();
      EvictedMatrices(old@used(Now()), Now());
      EvictedLive(old@used(Now()), Now());
      SameKeys(order, size, bytes);
      assert order[0] == k;
    }

    // -------------------------------------------------------------------------------
    // The working set of an operation
    // -------------------------------------------------------------------------------

    /** The device copy of a weight, uploaded on a miss or when its dimensions changed. A change of dimensions frees the old copy:
        its address is live afterwards only if the new copy got it. */
    method EnsureMatrix(k: Key, want: Shape) returns (r: Ensured)
      requires Valid()
      modifies this`order, this`size, this`bytes, this`matrices, this`graphs, this`layerGraphs, this`evictions, mem
      ensures Valid()
      ensures r.Pointer? ==> k in matrices && matrices[k] == Mat(r.ptr, want)
      ensures r.Pointer? ==> UsedThenEvicted(old(order), k, order)
      ensures forall x <- matrices :: x != k ==> x in old(matrices) && matrices[x] == old(matrices)[x]
      ensures k in old(matrices) && old(matrices)[k].shape == want ==> r == Pointer(old(matrices)[k].ptr)
      ensures k in old(matrices) && old(matrices)[k].shape != want ==>
        old(matrices)[k].ptr !in mem.live || r == Pointer(old(matrices)[k].ptr)
      ensures r == UploadFailed(-1) ==> |order| <= 8
      ensures r.UploadFailed? ==> mem.refusals > old(mem.refusals)
      ensures r.UploadFailed? && OnlyShort(old(mem.refusals), old(mem.shortages)) ==> |order| <= 8
      ensures r.EmptyWeights? ==> want.bytes == 0 && k.kind != F32
      ensures mem.refusals >= old(mem.refusals)
      ensures Leaks() <= old(Leaks())
    {
      hide AllHeld, BuffersLive, AllCurrent, WellKept, Without, OnlyEvicted, UsedThenEvicted, Loose;
      var hit := k in matrices;
      SameKeys(order, size, bytes);
      UsedNow(order, k);
      if !hit { AbsentStays(order, size, bytes, k); }
      TouchWeight(k);
      if hit && matrices[k].shape == want {
        return Pointer(matrices[k].ptr);
      }
      if hit { var _ := FreeWeight(k); }
      if want.bytes == 0 && k.kind != F32 { return EmptyWeights; }
      ghost var mid;
      r, mid := UploadTracked(k, want);
      if r.Pointer? { EvictedThenUsed(old(order), old(size), old(bytes), k, mid, order); }
    }

    /** The upload of a weight that is not cached: evicting while memory is short, then tracked. `mid` is the order in between. */
    method UploadTracked(k: Key, want: Shape) returns (r: Ensured, ghost mid: seq<Key>)
      requires Valid() && k !in matrices
      modifies this`order, this`size, this`bytes, this`matrices, this`graphs, this`layerGraphs, this`evictions, mem
      ensures Valid() && (r.Pointer? || r.UploadFailed?)
      ensures r.Pointer? ==> k in matrices && matrices[k] == Mat(r.ptr, want)
      ensures r.Pointer? ==> mid <= old(order) && (mid == old(order) || |mid| >= 8) && UsedThenEvicted(mid, k, order)
      ensures forall x <- matrices :: x != k ==> x in old(matrices) && matrices[x] == old(matrices)[x]
      ensures r == UploadFailed(-1) ==> |order| <= 8
      ensures mem.live.Keys <= old(mem.live.Keys) + if r.Pointer? then {r.ptr} else {}
      ensures mem.refusals >= old(mem.refusals) && (r.UploadFailed? ==> mem.refusals > old(mem.refusals))
      ensures r.UploadFailed? && OnlyShort(old(mem.refusals), old(mem.shortages)) ==> |order| <= 8
      ensures Leaks() <= old(Leaks())
    {
      hide AllHeld, BuffersLive, AllCurrent, WellKept, Without, OnlyEvicted, UsedThenEvicted, Loose;
      var rc, ptr := EvictRetry(k, want);
      EvictedLive(old(Now()), if rc == 0 then Now().(live := mem.live - {ptr}) else Now());
      mid := order;
      if rc != 0 { return UploadFailed(rc), mid; }
      LooseAdopted(mem.live, matrices, bufs, k, Mat(ptr, want));
      AllHeldWith(matrices, k, Mat(ptr, want), mem.live);
      matrices := matrices[k := Mat(ptr, want)];
      TrackWeight(k, want.bytes);
      return Pointer(ptr), mid;
    }

    /** All weights of one fused operation, in order. After success every pointer obtained on the way is
        still live and still its own weight, whatever was evicted, retried or re-uploaded in between, if and only if
        the operation asks for every key in one shape. */
    method EnsureAll(specs: seq<Spec>) returns (r: Result<seq<Addr>, int>)
      requires Valid() && |specs| <= PROTECT
      modifies this`order, this`size, this`bytes, this`matrices, this`graphs, this`layerGraphs, this`evictions, mem
      ensures Valid() && Leaks() <= old(Leaks())
      ensures r.Ok? ==> |r.value| == |specs|
      ensures r.Ok? && OneShapePerKey(specs) ==> WorkingSet(specs, r.value, matrices)
      ensures r.Ok? && old(Leaks()) == {} ==> (EachHeld(specs, r.value, mem.live) <==> OneShapePerKey(specs))
      ensures r.Err? ==> mem.refusals > old(mem.refusals) || exists s <- specs :: s.shape.bytes == 0 && s.key.kind != F32
      ensures mem.refusals >= old(mem.refusals)
    {
      hide AllHeld, BuffersLive, AllCurrent, WellKept, Without, UsedThenEvicted, Recent, Loose, OneShapePerKey, EachHeld;
      var ptrs := [];
      for i := 0 to |specs|
        invariant Valid() && |ptrs| == i && Leaks() <= old(Leaks()) && mem.refusals >= old(mem.refusals)
        invariant forall j :: 0 <= j < i ==> Recent(order, i, specs[j].key)
        invariant OneShapePerKey(specs) ==>
          forall j :: 0 <= j < i ==> specs[j].key in matrices && matrices[specs[j].key] == Mat(ptrs[j], specs[j].shape)
      {
        var k := specs[i].key;
        ghost var was := order;
        var e := EnsureMatrix(k, specs[i].shape);
        if !e.Pointer? {
          assert specs[i] in specs;
          return Err(if e.UploadFailed? then e.rc else -1);
        }
        SameKeys(order, size, bytes);
        forall j | 0 <= j <= i ensures Recent(order, i + 1, specs[j].key) && specs[j].key in order {
          UsedStayRecent(was, k, order, i, specs[j].key);
          RecentIsIn(order, i + 1, specs[j].key);
        }
        if OneShapePerKey(specs) { ShapesAgree(specs, i); }
        ptrs := ptrs + [e.ptr];
      }
      if OneShapePerKey(specs) {
        WorkingSetHeld(specs, ptrs, matrices, mem.live);
      } else if EachHeld(specs, ptrs, mem.live) && old(Leaks()) == {} {
        HeldHasOneShape(specs, ptrs, matrices, bufs, mem.live);
      }
      return Ok(ptrs);
    }

    lemma SetHeld(specs: seq<Spec>, ptrs: seq<Addr>)
      requires Valid() && WorkingSet(specs, ptrs, matrices)
      ensures EachHeld(specs, ptrs, mem.live)
      ensures |ptrs| == |specs| && forall p <- ptrs :: p in mem.live && mem.live[p].payload.Weight?
    {
      hide AllHeld, BuffersLive, AllCurrent, WellKept, WorkingSet, EachHeld;
      WorkingSetHeld(specs, ptrs, matrices, mem.live);
      SameLength(specs, ptrs, mem.live);
    }

    /** The same weight in two shapes: once the second one is there, the first pointer is not that weight any more. */
    method TwoShapes(k: Key, first: Shape, second: Shape) returns (a: Ensured, b: Ensured)
      requires Valid() && first != second
      modifies this`order, this`size, this`bytes, this`matrices, this`graphs, this`layerGraphs, this`evictions, mem
      ensures Valid()
      ensures a.Pointer? && b.Pointer? ==>
        !Holds(k, Mat(a.ptr, first), mem.live) && Holds(k, Mat(b.ptr, second), mem.live)
    {
      hide BuffersLive, AllCurrent, WellKept, Without, UsedThenEvicted, Loose;
      b := EmptyWeights;
      a := EnsureMatrix(k, first);
      if a.Pointer? { b := EnsureMatrix(k, second); }
    }

    /** FreeWeight, counted as an eviction. */
    method FreeCounted(k: Key) returns (found: bool)
      requires Valid()
      modifies this`order, this`size, this`bytes, this`matrices, this`graphs, this`layerGraphs, this`evictions, mem`live
      ensures Valid()
      ensures found <==> k in old(matrices)
      ensures matrices == old(matrices) - {k} && evictions == old(evictions) + if found then 1 else 0
      ensures Leaks() <= old(Leaks())
    {
      hide AllHeld, BuffersLive, AllCurrent, Kept, Without, Loose;
      found := FreeWeight(k);
      if found { evictions := evictions + 1; }
    }

    /** Frees a name in each of the kinds, one after the other. */
    method FreeInKinds(name: string, kinds: seq<Kind>) returns (freed: bool)
      requires Valid()
      modifies this`order, this`size, this`bytes, this`matrices, this`graphs, this`layerGraphs, this`evictions, mem`live
      ensures Valid()
      ensures matrices == Spared(old(matrices), name, set kind | kind in kinds)
      ensures freed <==> |matrices| < |old(matrices)|
      ensures evictions + |matrices| == old(evictions) + |old(matrices)|
      ensures Leaks() <= old(Leaks())
    {
      hide AllHeld, BuffersLive, AllCurrent, Kept, Without, Spared, Loose;
      freed := false;
      ghost var done: set<Kind> := {};
      SparedStep(matrices, name, {}, F32);
      for i := 0 to |kinds|
        invariant Valid() && Leaks() <= old(Leaks())
        invariant done == set kind | kind in kinds[..i]
        invariant matrices == Spared(old(matrices), name, done)
        invariant |matrices| <= |old(matrices)| && (freed <==> |matrices| < |old(matrices)|)
        invariant evictions + |matrices| == old(evictions) + |old(matrices)|
      {
        var k := Key(kinds[i], name);
        DropOne(matrices, k);
        SparedStep(old(matrices), name, done, kinds[i]);
        var found := FreeCounted(k);
        if found { freed := true; }
        done := done + {kinds[i]};
        assert kinds[..i + 1] == kinds[..i] + [kinds[i]];
      }
      assert kinds[..|kinds|] == kinds;
    }

    /** Explicit eviction of one weight in every kind. */
    method EvictQuantMatrix(name: string) returns (freed: bool)
      requires Valid()
      modifies this`order, this`size, this`bytes, this`matrices, this`graphs, this`layerGraphs, this`evictions, mem`live
      ensures Valid()
      ensures matrices == map k | k in old(matrices) && k.name != name :: old(matrices)[k]
      ensures freed <==> |matrices| < |old(matrices)|
      ensures evictions + |matrices| == old(evictions) + |old(matrices)|
      ensures Leaks() <= old(Leaks())
    {
      hide Loose;
      AllKinds();
      SparedAll(matrices, name, set kind | kind in ALL_KINDS);
      freed := FreeInKinds(name, ALL_KINDS);
    }

    /** New caps hold at once, as far as the protected matrices allow. */
    method SetWeightCacheLimits(maxMatrices: int, maxBytes: int)
      requires Valid()
      modifies this`maxEntries, this`maxBytes, this`order, this`size, this`bytes, this`matrices, this`graphs, this`layerGraphs, this`evictions, mem`live
      ensures Valid() && maxEntries == maxMatrices && this.maxBytes == maxBytes
      ensures order <= old(order) && (|order| <= 8 || CapsHold(maxEntries, maxBytes, |order|, bytes))
      ensures Leaks() <= old(Leaks())
    {
      hide AllHeld, BuffersLive, AllCurrent, Kept, Without, OnlyEvicted, Loose;
      maxEntries := maxMatrices;
      this.maxBytes := maxBytes;
      EnforceWeightCaps();
    }

    /** Frees every victim, in any order. */
    method FreeVictims(victims: set<Key>) returns (n: nat)
      requires Valid()
      modifies this`order, this`size, this`bytes, this`matrices, this`graphs, this`layerGraphs, this`evictions, mem`live
      ensures Valid()
      ensures Removed(old(matrices), matrices, victims, {})
      ensures n == |old(matrices)| - |matrices| && evictions == old(evictions) + n
      ensures Leaks() <= old(Leaks())
    {
      hide AllHeld, BuffersLive, AllCurrent, Kept, Removed, Loose;
      var left := victims;
      n := 0;
      RemovedNothing(matrices, victims);
      while left != {}
        invariant Valid() && Removed(old(matrices), matrices, victims, left) && Leaks() <= old(Leaks())
        invariant n == |old(matrices)| - |matrices| && evictions == old(evictions) + n
        decreases left
      {
        var k :| k in left;
        RemovedStep(old(matrices), matrices, victims, left, k);
        var found := FreeCounted(k);
        if found { n := n + 1; }
        left := left - {k};
      }
    }

    /** Explicit eviction of everything under a name prefix, such as one finished layer. */
    method EvictMatricesWithPrefix(prefix: string) returns (n: nat)
      requires Valid()
      modifies this`order, this`size, this`bytes, this`matrices, this`graphs, this`layerGraphs, this`evictions, mem`live
      ensures Valid()
      ensures matrices == map k | k in old(matrices) && !(prefix <= k.name) :: old(matrices)[k]
      ensures n == |old(matrices)| - |matrices| && evictions == old(evictions) + n
      ensures Leaks() <= old(Leaks())
    {
      hide AllHeld, BuffersLive, AllCurrent, WellKept, Removed, Loose;
      var victims := set k | k in size && prefix <= k.name;
      n := FreeVictims(victims);
      RemovedAll(old(matrices), matrices, victims);
    }

    // -------------------------------------------------------------------------------
    // Pool growth
    // -------------------------------------------------------------------------------

    /** What was asked for properly fails only if something was refused meanwhile. */
    ghost predicate RefusedFor(before: nat, ok: bool, proper: bool)
      reads this, mem
    {
      before <= mem.refusals && (proper && !ok ==> before < mem.refusals)
    }

    function Cap(s: Slot): int
      reads this
    {
      CapOf(caps, s)
    }

    /** Gives slot `s` the block `a` and frees the block it had. Weights, attention buffers and their
        graphs do not notice; the graphs over the pool must be gone. */
    method Install(s: Slot, a: Addr)
      requires PointersLive() && graphs == [] && layerGraphs == [] && s.InMatmulPool()
      requires a in mem.live && a.n != 0 && mem.live[a].payload == Buffer(s) && (s in bufs ==> bufs[s] != a)
      modifies this`bufs, mem`live
      ensures PointersLive() && bufs == old(bufs)[s := a]
      ensures mem.live == if s in old(bufs) then old(mem.live) - {old(bufs)[s]} else old(mem.live)
      ensures Leaks() <= old(Leaks()) - {a}
    {
      hide AllHeld, BuffersLive, AllCurrent, Loose;
      LooseInstalled(mem.live, matrices, bufs, s, a);
      Reinstalled(mem.live, bufs, s, a);
      if s in bufs { mem.Free(bufs[s]); }
      bufs := bufs[s := a];
      PoolOnlyKeeps(matrices, attnGraphs, old(mem.live), old(bufs), mem.live, bufs);
    }

    /** A new block, not yet installed. */
    method NewBuffer(s: Slot) returns (r: Option<Addr>)
      requires PointersLive() && graphs == [] && layerGraphs == []
      modifies mem
      ensures PointersLive()
      ensures r.None? ==> mem.live == old(mem.live)
      ensures r.Some? ==> r.value !in old(mem.live) && r.value.n != 0
      ensures r.Some? ==> r.value in mem.live && mem.live[r.value].payload == Buffer(s)
      ensures r.Some? ==> mem.live - {r.value} == old(mem.live)
      ensures r.Some? && s in bufs ==> bufs[s] != r.value
      ensures mem.refusals == old(mem.refusals) + if r.None? then 1 else 0
      ensures Leaks() <= old(Leaks()) + if r.Some? then {r.value} else {}
    {
      hide AllHeld, AllCurrent, Loose;
      r := mem.Alloc(s.OnHost(), Buffer(s));
      if r.Some? {
        LooseAdded(old(mem.live), matrices, bufs, r.value, mem.live);
        BlockAdded(matrices, bufs, graphs, layerGraphs, attnGraphs, old(mem.live), mem.live);
      }
    }

    /** Frees a block that was never installed. */
    method Discard(s: Slot, a: Addr)
      requires PointersLive() && graphs == [] && layerGraphs == [] && s.InMatmulPool()
      requires a in mem.live && mem.live[a].payload == Buffer(s) && (s in bufs ==> bufs[s] != a)
      modifies mem`live
      ensures PointersLive() && mem.live == old(mem.live) - {a}
      ensures Leaks() <= old(Leaks()) - {a}
    {
      hide AllHeld, AllCurrent, Loose;
      LooseFreed(mem.live, matrices, bufs, a);
      mem.Free(a);
      PoolOnlyKeeps(matrices, attnGraphs, old(mem.live), bufs, mem.live, bufs);
    }

    /** realloc of a staging buffer: may fail, may stay in place, may move. */
    method Realloc(host: Slot) returns (ok: bool)
      requires PointersLive() && graphs == [] && layerGraphs == [] && host.InMatmulPool()
      modifies this`bufs, mem
      ensures PointersLive()
      ensures ok ==> host in bufs
      ensures !ok ==> bufs == old(bufs)
      ensures old(bufs).Keys <= bufs.Keys
      ensures OnlySlot(host, old(mem.live), old(bufs), mem.live, bufs)
      ensures Leaks() <= old(Leaks())
      ensures if ok then mem.refusals == old(mem.refusals) else mem.refusals > old(mem.refusals)
    {
      hide AllHeld, AllCurrent, BuffersLive, Loose, OnlySlot;
      SlotStays(host, mem.live, bufs);
      if host in bufs {
        if * { return true; }
      }
      var moved := NewBuffer(host);
      if moved.None? { return false; }
      BufferIs(mem.live, bufs, host);
      SlotMoved(host, old(mem.live), bufs, mem.live, moved.value);
      Install(host, moved.value);
      return true;
    }

    /** Grows a device buffer with its host staging buffer, the new blocks first, the old ones freed last. */
    method Grow(dev: Slot, host: Option<Slot>, n: int) returns (rc: int)
      requires PointersLive() && graphs == [] && layerGraphs == []
      requires dev.InMatmulPool() && !dev.OnHost() && (host.Some? ==> host.value.InMatmulPool() && host.value != dev)
      modifies this`bufs, this`caps, mem
      ensures PointersLive()
      ensures rc == 0 ==> dev in bufs && (host.Some? ==> host.value in bufs) && caps == old(caps)[dev := n]
      ensures rc == 0 || rc == -12 || rc == if dev.DVec? then -1 else -2
      ensures rc != 0 ==> caps == old(caps)
      ensures old(bufs).Keys <= bufs.Keys
      ensures OthersStay(old(mem.live), mem.live) && Leaks() <= old(Leaks())
      ensures if rc == 0 then mem.refusals == old(mem.refusals) else mem.refusals > old(mem.refusals)
    {
      hide AllHeld, AllCurrent, BuffersLive, Loose;
      var d := NewBuffer(dev);
      if d.None? { return if dev.DVec? then -1 else -2; }
      if host.Some? {
        var ok := Realloc(host.value);
        if !ok {
          Discard(dev, d.value);
          return -12;
        }
      }
      BufferIs(mem.live, bufs, dev);
      Install(dev, d.value);
      caps := caps[dev := n];
      return 0;
    }

    /** Growth where what is ready stays ready. */
    method GrowReady(dev: Slot, host: Option<Slot>, n: int) returns (rc: int)
      requires Valid() && Ready() && graphs == [] && layerGraphs == [] && n > Cap(dev)
      requires dev in {DVec, DOut, DAux, DResid, DMoeH}
      requires host == if dev == DVec then Some(HVec) else if dev == DOut then Some(HOut) else if dev == DResid then Some(HResid) else None
      modifies this`bufs, this`caps, mem
      ensures Valid() && Ready()
      ensures rc == 0 ==> dev in bufs && (host.Some? ==> host.value in bufs) && caps == old(caps)[dev := n]
      ensures rc != 0 ==> caps == old(caps)
      ensures old(bufs).Keys <= bufs.Keys
      ensures OthersStay(old(mem.live), mem.live) && Leaks() <= old(Leaks())
      ensures if rc == 0 then mem.refusals == old(mem.refusals) else mem.refusals > old(mem.refusals)
    {
      hide AllHeld, AllCurrent, BuffersLive, Kept, Loose, BuffersReady, OthersStay;
      rc := Grow(dev, host, n);
      ReadyGrown(old(bufs), old(caps), bufs, caps, dev, host, n, rc, hidden, kvReady, kvLayers);
    }

    /** The same for a staging buffer alone. */
    method ReallocReady(host: Slot) returns (ok: bool)
      requires Valid() && Ready() && graphs == [] && layerGraphs == [] && host.InMatmulPool()
      modifies this`bufs, mem
      ensures Valid() && Ready() && (ok ==> host in bufs)
      ensures old(bufs).Keys <= bufs.Keys && Leaks() <= old(Leaks())
      ensures if ok then mem.refusals == old(mem.refusals) else mem.refusals > old(mem.refusals)
    {
      hide AllHeld, AllCurrent, BuffersLive, Kept, Loose, BuffersReady, OnlySlot;
      ok := Realloc(host);
      ReadyMore(old(bufs), bufs, caps, hidden, kvReady, kvLayers);
    }

    method DropGraphs()
      requires Valid() && Ready()
      modifies this`graphs, this`layerGraphs
      ensures Valid() && Ready() && graphs == [] && layerGraphs == [] && Leaks() == old(Leaks())
    {
      hide AllHeld, AllCurrent, BuffersLive, Kept, Loose, BuffersReady;
      ClearMatmulGraphs();
      NoneCurrent(false, mem.live, bufs);
    }

    /** Forgets the hidden state, the snapshot or both. */
    method Forget(less: Hidden)
      requires Valid() && Ready()
      requires less == hidden.(resident := false, len := 0) || less == hidden.(moe := 0) || less == NO_HIDDEN || less == hidden.(resident := false)
      modifies this`hidden
      ensures Valid() && Ready() && hidden == less && Leaks() == old(Leaks())
    {
      hide AllHeld, AllCurrent, BuffersLive, Kept, Loose, BuffersReady;
      ReadyWithout(bufs, caps, hidden, kvReady, kvLayers);
      hidden := less;
    }

    /** Room in a pool means a buffer. */
    lemma HasRoom()
      requires Ready()
      ensures Cap(DVec) > 0 ==> DVec in bufs && HVec in bufs
      ensures Cap(DOut) > 0 ==> DOut in bufs && HOut in bufs
      ensures Cap(DAux) > 0 ==> DAux in bufs
      ensures Cap(DResid) > 0 ==> DResid in bufs
      ensures Cap(DMoeH) > 0 ==> DMoeH in bufs
      ensures hidden.resident ==> hidden.len <= Cap(DResid)
    {
    }

    method PoolEnsure(rows: int, cols: int) returns (rc: int)
      requires Valid() && Ready()
      modifies this`bufs, this`caps, this`graphs, this`layerGraphs, mem
      ensures Valid() && Ready() && old(bufs).Keys <= bufs.Keys && Leaks() <= old(Leaks())
      ensures rc == 0 ==> 0 < rows && 0 < cols && {DVec, HVec, DOut, HOut} <= bufs.Keys && Cap(DVec) >= cols && Cap(DOut) >= rows
      ensures OthersStay(old(mem.live), mem.live) && NoneSmaller(old(caps), caps)
      ensures RefusedFor(old(mem.refusals), rc == 0, rows > 0 && cols > 0)
    {
      hide Backend.PointersLive, Backend.Bookkeeping, Backend.Leaks, Backend.Ready, OthersStay;
      AllStay(mem.live);
      if rows <= 0 || cols <= 0 { return -11; }
      HasRoom();
      if cols <= Cap(DVec) && rows <= Cap(DOut) { return 0; }
      DropGraphs();
      if cols > Cap(DVec) {
        rc := GrowReady(DVec, Some(HVec), cols);
        if rc != 0 { return; }
      }
      if rows > Cap(DOut) {
        ghost var mid := mem.live;
        rc := GrowReady(DOut, Some(HOut), rows);
        OthersStayTwice(old(mem.live), mid, mem.live);
        if rc != 0 { return; }
      }
      return 0;
    }

    method PoolEnsureAux(n: int) returns (rc: int)
      requires Valid() && Ready()
      modifies this`bufs, this`caps, this`graphs, this`layerGraphs, mem
      ensures Valid() && Ready() && old(bufs).Keys <= bufs.Keys && Leaks() <= old(Leaks())
      ensures rc == 0 ==> DAux in bufs && Cap(DAux) >= n
      ensures NoneSmaller(old(caps), caps)
      ensures RefusedFor(old(mem.refusals), rc == 0, n > 0)
    {
      hide Backend.PointersLive, Backend.Bookkeeping, Backend.Leaks, Backend.Ready, OthersStay;
      if n <= 0 { return -11; }
      if n <= Cap(DAux) {
        HasRoom();
        return 0;
      }
      DropGraphs();
      rc := GrowReady(DAux, None, n);
    }

    /** The residual buffer. The staging buffer is reallocated even when the device buffer is large enough
        but was never staged. A buffer that moves ends residency; one that holds the state asked for does not move. */
    method PoolEnsureResid(n: int) returns (rc: int)
      requires Valid() && Ready()
      modifies this`bufs, this`caps, this`graphs, this`layerGraphs, this`hidden, mem
      ensures Valid() && Ready() && old(bufs).Keys <= bufs.Keys && Leaks() <= old(Leaks())
      ensures hidden == old(hidden) || hidden == old(hidden).(resident := false, len := 0)
      ensures old(hidden).resident && old(hidden).len == n ==> hidden == old(hidden)
      ensures rc == 0 ==> 0 < n && DResid in bufs && HResid in bufs && Cap(DResid) >= n
      ensures rc != 0 ==> hidden == old(hidden)
      ensures NoneSmaller(old(caps), caps)
      ensures RefusedFor(old(mem.refusals), rc == 0, n > 0)
    {
      hide Backend.PointersLive, Backend.Bookkeeping, Backend.Leaks, Backend.Ready, OthersStay;
      if n <= 0 { return -11; }
      HasRoom();
      if n <= Cap(DResid) && HResid in bufs { return 0; }
      DropGraphs();
      if n > Cap(DResid) {
        rc := GrowReady(DResid, Some(HResid), n);
        if rc == 0 { Forget(hidden.(resident := false, len := 0)); }
      } else {
        var ok := ReallocReady(HResid);
        rc := if ok then 0 else -12;
      }
    }

    /** The snapshot buffer of mixture-of-experts layers. */
    method PoolEnsureMoeH(n: int) returns (rc: int)
      requires Valid() && Ready()
      modifies this`bufs, this`caps, this`graphs, this`layerGraphs, this`hidden, mem
      ensures Valid() && Ready() && old(bufs).Keys <= bufs.Keys && Leaks() <= old(Leaks())
      ensures hidden == old(hidden) || hidden == old(hidden).(moe := 0)
      ensures rc == 0 ==> 0 < n && DMoeH in bufs && Cap(DMoeH) >= n
      ensures NoneSmaller(old(caps), caps)
      ensures RefusedFor(old(mem.refusals), rc == 0, n > 0)
    {
      hide Backend.PointersLive, Backend.Bookkeeping, Backend.Leaks, Backend.Ready, OthersStay;
      if n <= 0 { return -11; }
      HasRoom();
      if n <= Cap(DMoeH) && DMoeH in bufs { return 0; }
      DropGraphs();
      rc := GrowReady(DMoeH, None, n);
      if rc == 0 { Forget(hidden.(moe := 0)); }
    }

    // -------------------------------------------------------------------------------
    // Finding and capturing graphs
    // -------------------------------------------------------------------------------

    /** Records what a capture under this key embeds. */
    method CaptureGraph(key: GraphKey) returns (exec: seq<Ref>)
      requires PointersLive() && Capturable(key, mem.live, bufs)
      ensures Current(Graph(key, exec), mem.live, bufs)
    {
      hide AllHeld, AllCurrent, BuffersLive, Operands;
      var ops := Operands(key);
      exec := [];
      for i := 0 to |ops|
        invariant |exec| == i
        invariant forall j :: 0 <= j < i ==> Embeds(ops[j], exec[j], key.AttnKey?, mem.live, bufs)
      {
        assert ops[i] in ops;
        assert CanEmbed(ops[i], key.AttnKey?, mem.live, bufs);
        var ref := match ops[i]
          case Skip => Ref(NULL, 0)
          case Ptr(p) => Ref(p, mem.live[p].serial)
          case Buf(s) => Ref(bufs[s], mem.live[bufs[s]].serial);
        exec := exec + [ref];
      }
    }

    /** The table that graphs of this kind are kept in. */
    function TableFor(key: GraphKey): seq<Graph>
      reads this
    {
      if key.MatmulKey? then graphs else if key.AttnKey? then attnGraphs else layerGraphs
    }

    /** The cached graph of this key, or a new capture (which may fail). What is launched is what a capture
        would embed now: a hit is never a stale graph on a reused address. */
    method FindOrCapture(key: GraphKey) returns (r: Option<seq<Ref>>)
      requires Valid() && Capturable(key, mem.live, bufs)
      modifies this`graphs, this`layerGraphs, this`attnGraphs, mem`refusals
      ensures Valid() && RefusedFor(old(mem.refusals), r.Some?, true)
      ensures r.Some? ==> Current(Graph(key, r.value), mem.live, bufs)
      // A graph in the table is used again; a new one goes to its front, in the attention table in place of 128 others.
      ensures (exists g <- old(TableFor(key)) :: g.key == key) ==>
        r.Some? && Graph(key, r.value) in old(TableFor(key)) && TableFor(key) == old(TableFor(key))
      ensures r.Some? && (forall g <- old(TableFor(key)) :: g.key != key) ==>
        TableFor(key) == [Graph(key, r.value)] + if key.AttnKey? && |old(TableFor(key))| >= 128 then [] else old(TableFor(key))
      ensures key.MatmulKey? || graphs == old(graphs)
      ensures key.AttnKey? || attnGraphs == old(attnGraphs)
      ensures key.MatmulKey? || key.AttnKey? ==> layerGraphs == old(layerGraphs)
    {
      hide AllHeld, AllCurrent, BuffersLive, Kept, Current, Capturable;
      var table := TableFor(key);
      for i := 0 to |table|
        invariant forall j :: 0 <= j < i ==> table[j].key != key
      {
        if table[i].key == key {
          assert table[i] in table;
          MemberCurrent(table, i, key.AttnKey?, mem.live, bufs);
          return Some(table[i].exec);
        }
      }
      if key.AttnKey? && |table| >= 128 {
        table := [];
        attnGraphs := [];
      }
      NoneCurrent(key.AttnKey?, mem.live, bufs);
      var ok := mem.Ask();
      if !ok { return None; }
      var exec := CaptureGraph(key);
      OneMoreCurrent(table, Graph(key, exec), key.AttnKey?, mem.live, bufs);
      if key.MatmulKey? {
        graphs := [Graph(key, exec)] + graphs;
      } else if key.AttnKey? {
        attnGraphs := [Graph(key, exec)] + attnGraphs;
      } else {
        layerGraphs := [Graph(key, exec)] + layerGraphs;
      }
      return Some(exec);
    }

    // -------------------------------------------------------------------------------
    // Attention pool and KV cache
    // -------------------------------------------------------------------------------

    /** Frees the attention pool and the KV cache, and drops every graph. */
    method FreeAttention()
      requires Valid()
      modifies this`bufs, this`graphs, this`layerGraphs, this`attnGraphs, mem`live
      ensures Valid() && graphs == [] && layerGraphs == [] && attnGraphs == []
      ensures OnlyMatmulPool(old(bufs), bufs) && SamePool(old(bufs), bufs) && Leaks() <= old(Leaks())
    {
      hide AllHeld, AllCurrent, BuffersLive, Kept, Loose;
      var doomed := set s | s in bufs && !s.InMatmulPool();
      ghost var was := bufs;
      graphs, layerGraphs, attnGraphs := [], [], [];
      NoneCurrent(false, mem.live, bufs);
      NoneCurrent(true, mem.live, bufs);
      while doomed != {}
        invariant Valid() && graphs == [] && layerGraphs == [] && attnGraphs == [] && Leaks() <= old(Leaks())
        invariant bufs == map s | s in was && (s.InMatmulPool() || s in doomed) :: was[s]
        decreases doomed
      {
        var s :| s in doomed;
        doomed := doomed - {s};
        if s in bufs {
          BufferFreed(matrices, bufs, s, mem.live);
          LooseBufferFreed(mem.live, matrices, bufs, s);
          mem.Free(bufs[s]);
          bufs := bufs - {s};
        }
      }
    }

    /** Allocates the slots one by one, until one is refused; then the caller frees what there is. */
    method AllocAttention(slots: seq<Slot>) returns (ok: bool)
      requires Valid() && graphs == [] && layerGraphs == [] && attnGraphs == []
      requires forall s <- slots :: !s.InMatmulPool() && s !in bufs
      requires forall i, j :: 0 <= i < j < |slots| ==> slots[i] != slots[j]
      modifies this`bufs, mem
      ensures Valid() && graphs == [] && layerGraphs == [] && attnGraphs == []
      ensures ok ==> forall s <- slots :: s in bufs
      ensures SamePool(old(bufs), bufs) && Leaks() <= old(Leaks())
      ensures mem.refusals == old(mem.refusals) + if ok then 0 else 1
    {
      hide AllHeld, AllCurrent, BuffersLive, Kept, Loose;
      for i := 0 to |slots|
        invariant Valid() && Leaks() <= old(Leaks()) && mem.refusals == old(mem.refusals)
        invariant forall j :: 0 <= j < |slots| ==> (slots[j] in bufs <==> j < i)
        invariant SamePool(old(bufs), bufs)
      {
        assert slots[i] in slots;
        var b := NewBuffer(slots[i]);
        if b.None? { return false; }
        BufferInstalled(bufs, slots[i], b.value, mem.live);
        LooseInstalled(mem.live, matrices, bufs, slots[i], b.value);
        bufs := bufs[slots[i] := b.value];
        NoneCurrent(false, mem.live, bufs);
        NoneCurrent(true, mem.live, bufs);
      }
      return true;
    }

    ghost predicate Ready()
      reads this
    {
      BuffersReady(bufs, caps, hidden, kvReady, kvLayers)
    }

    /** A new KV cache. It is ready exactly if all sizes are positive and no allocation was refused; otherwise there is none. */
    method KVCacheInit(layers: int, maxSeq: int, kvDim: int, qElems: int, ropeHalf: int) returns (ok: bool)
      requires Valid() && Ready()
      modifies this`bufs, this`graphs, this`layerGraphs, this`attnGraphs, this`kvReady, this`kvLayers, mem
      ensures Valid() && Ready() && kvReady == ok && (ok ==> kvLayers == layers)
      ensures ok <==>
        layers > 0 && maxSeq > 0 && kvDim > 0 && qElems > 0 && ropeHalf > 0 && mem.refusals == old(mem.refusals)
      ensures graphs == [] && layerGraphs == [] && attnGraphs == []
      ensures Leaks() <= old(Leaks())
    {
      hide AllHeld, AllCurrent, BuffersLive, Kept, BuffersReady, SamePool, Loose, AttnSlots;
      kvReady := false;
      FreeAttention();
      StillReady(old(bufs), bufs, caps, hidden, old(kvReady), old(kvLayers), kvLayers);
      if layers <= 0 || maxSeq <= 0 || kvDim <= 0 { return false; }
      ok := mem.Ask();
      if !ok { return; }
      ok := AllocKv(layers, qElems > 0 && ropeHalf > 0);
      if ok { kvReady, kvLayers := true, layers; }
    }

    /** The KV blocks, and the pool if its sizes are right; all or nothing. */
    method AllocKv(layers: nat, pool: bool) returns (ok: bool)
      requires Valid() && BuffersReady(bufs, caps, hidden, false, kvLayers) && graphs == [] && layerGraphs == [] && attnGraphs == []
      requires forall s <- bufs :: s.InMatmulPool()
      modifies this`bufs, this`graphs, this`layerGraphs, this`attnGraphs, mem
      ensures Valid() && graphs == [] && layerGraphs == [] && attnGraphs == []
      ensures BuffersReady(bufs, caps, hidden, ok, if ok then layers else kvLayers)
      ensures ok <==> pool && mem.refusals == old(mem.refusals)
      ensures mem.refusals >= old(mem.refusals) && Leaks() <= old(Leaks())
    {
      hide AllHeld, AllCurrent, BuffersLive, Kept, AttnSlots, BuffersReady, SamePool, Loose, KvSlots;
      forall s: Slot ensures s in AttnSlots(layers) <==> InAttention(s, layers) { AttnSlotsAre(layers, s); }
      forall s: Slot ensures s in KvSlots(layers) <==> (s.KvK? || s.KvV?) && InAttention(s, layers) { KvSlotsAre(layers, s); }
      AttnSlotsDistinct(layers);
      KvSlotsDistinct(layers);
      ok := AllocAttention(if pool then AttnSlots(layers) else KvSlots(layers));
      ok := ok && pool;
      StillReady(old(bufs), bufs, caps, hidden, false, kvLayers, layers);
      if !ok {
        ghost var mid := bufs;
        FreeAttention();
        StillReady(mid, bufs, caps, hidden, false, layers, kvLayers);
      }
    }

    /** Uploads the hidden state. Growing the buffer or copying can fail; then none is resident. */
    method HiddenUpload(n: int) returns (rc: int)
      requires Valid() && Ready()
      modifies this`bufs, this`caps, this`graphs, this`layerGraphs, this`hidden, mem
      ensures Valid() && Ready() && Leaks() <= old(Leaks())
      ensures hidden.moe == old(hidden.moe)
      ensures n <= 0 ==> rc != 0 && hidden == old(hidden)
      ensures n > 0 ==> hidden == Hidden(rc == 0, if rc == 0 then n else hidden.len, hidden.moe)
      ensures rc == 0 ==> hidden.len <= Cap(DResid)
      ensures RefusedFor(old(mem.refusals), rc == 0, n > 0)
    {
      hide AllHeld, AllCurrent, BuffersLive, Kept, AttnSlots, Loose;
      if n <= 0 { return -20; }
      rc := PoolEnsureResid(n);
      if rc != 0 {
        hidden := hidden.(resident := false);
        return;
      }
      var ok := mem.Ask();
      if !ok {
        hidden := hidden.(resident := false, len := 0);
        return -3;
      }
      hidden := hidden.(resident := true, len := n);
    }

    /** Downloads the hidden state. Whether the copy succeeds or not, none is resident afterwards. */
    method HiddenDownload(n: int) returns (rc: int)
      requires Valid() && Ready()
      modifies this`hidden, mem`refusals
      ensures Valid() && Ready()
      ensures RefusedFor(old(mem.refusals), rc == 0, n > 0 && old(hidden).resident && old(hidden).len == n)
      ensures if n > 0 then !hidden.resident else rc != 0 && hidden == old(hidden)
      ensures rc == 0 ==> n > 0 && old(hidden).resident && old(hidden).len == n
      ensures n > 0 && old(hidden).resident ==> hidden == NO_HIDDEN
    {
      hide AllHeld, AllCurrent, BuffersLive, Kept, AttnSlots, Loose;
      if n <= 0 || !hidden.resident { return -1; }
      rc := if hidden.len != n then -21 else 0;
      if rc == 0 {
        var ok := mem.Ask();
        if !ok { rc := -3; }
      }
      hidden := NO_HIDDEN;
    }

    /** The hidden state arrives from another device. A sender that has none, a failed growth or a failed copy leaves none here. */
    method PeerReceive(n: int) returns (rc: int)
      requires Valid() && Ready()
      modifies this`bufs, this`caps, this`graphs, this`layerGraphs, this`hidden, mem
      ensures Valid() && Ready() && Leaks() <= old(Leaks())
      ensures n > 0 ==> hidden == if rc == 0 then Hidden(true, n, old(hidden).moe) else NO_HIDDEN
      ensures n <= 0 ==> rc != 0 && hidden == old(hidden)
      ensures RefusedFor(old(mem.refusals), rc == 0, n > 0)
    {
      hide AllHeld, AllCurrent, BuffersLive, Kept, AttnSlots, Loose;
      if n <= 0 { return -20; }
      var ok := mem.Ask();
      rc := if ok then 0 else -21;
      if rc == 0 { rc := PoolEnsureResid(n); }
      if rc == 0 {
        ok := mem.Ask();
        if !ok { rc := -3; }
      }
      hidden := if rc == 0 then hidden.(resident := true, len := n) else NO_HIDDEN;
    }

    /** The hidden state leaves for another device: on success it is there and not here. */
    method PeerSend(n: int) returns (ok: bool)
      requires Valid() && Ready()
      modifies this`hidden, mem`refusals
      ensures Valid() && Ready() && Leaks() == old(Leaks())
      ensures RefusedFor(old(mem.refusals), ok, n > 0 && old(hidden).resident && old(hidden).len == n)
      ensures ok ==> n > 0 && old(hidden).resident && old(hidden).len == n
      ensures hidden == if ok then NO_HIDDEN else old(hidden)
    {
      hide AllHeld, AllCurrent, BuffersLive, Kept, AttnSlots, Loose;
      ok := false;
      if n > 0 && hidden.resident && hidden.len == n { ok := mem.Ask(); }
      if ok { hidden := NO_HIDDEN; }
    }

    /** A one-off matrix: uploaded, used without a graph, freed. Nothing of it stays live. */
    method MatMulVec(rows: int, cols: int) returns (rc: int)
      requires Valid() && Ready()
      modifies this`bufs, this`caps, this`graphs, this`layerGraphs, mem
      ensures Valid() && Ready() && Leaks() <= old(Leaks())
      ensures RefusedFor(old(mem.refusals), rc == 0, rows > 0 && cols > 0)
    {
      hide AllHeld, AllCurrent, BuffersLive, Kept, AttnSlots, Loose, BuffersReady, OthersStay;
      var t := mem.Alloc(false, Temporary);
      if t.None? { return -11; }
      LooseAdded(old(mem.live), matrices, bufs, t.value, mem.live);
      BlockAdded(matrices, bufs, graphs, layerGraphs, attnGraphs, old(mem.live), mem.live);
      ghost var mid := mem.live;
      rc := PoolEnsure(rows, cols);
      TemporaryStays(mid, mem.live, t.value);
      BlockAdded(matrices, bufs, graphs, layerGraphs, attnGraphs, mem.live, mem.live - {t.value});
      LooseFreed(mem.live, matrices, bufs, t.value);
      mem.Free(t.value);
      if rc == 0 {
        var ok := mem.Ask();
        if !ok { rc := -3; }
      }
    }

    // -------------------------------------------------------------------------------
    // Fused operations
    // -------------------------------------------------------------------------------

    /** What the host checks before it touches the weights. */
    predicate HostAccepts(op: Op)
      reads this
    {
      && (op.NeedsResident() ==> hidden.resident)
      && (op.Qkv? ==> kvReady)
      && (op.EmbedGather? ==> op.embd > 0 && op.embd % 32 == 0)
    }

    predicate HiddenFits(op: Op, on: bool)
      reads this
    {
      StateFits(op, on, hidden, kvReady)
    }

    /** Vectors and auxiliary buffer. */
    method EnsureVectors(op: Op) returns (rc: int)
      requires Valid() && Ready()
      modifies this`bufs, this`caps, this`graphs, this`layerGraphs, mem
      ensures Valid() && Ready() && Leaks() <= old(Leaks()) && old(bufs).Keys <= bufs.Keys
      ensures rc == 0 ==> VectorsThere(op, bufs, caps)
      ensures RefusedFor(old(mem.refusals), rc == 0,
                         && (op.NeedsVectors() ==> op.Rows() > 0 && op.Cols() > 0)
                         && (op.Ffn? || op.Residual? || op.MoeFfn? || op.MoeExpert? ==> op.ffn > 0))
    {
      hide AllHeld, AllCurrent, BuffersLive, Kept, Loose, OthersStay, BuffersReady, Op.Rows, Op.Cols;
      rc := 0;
      if op.NeedsVectors() {
        rc := PoolEnsure(op.Rows(), op.Cols());
        if rc != 0 { return; }
      }
      if op.Ffn? || op.Residual? || op.MoeFfn? || op.MoeExpert? {
        rc := PoolEnsureAux(op.ffn);
      }
    }

    /** Residual and snapshot. No growth drops a residual of the operation's own length, nor one it does not ask for. */
    method EnsureStates(op: Op) returns (rc: int)
      requires Valid() && Ready()
      modifies this`bufs, this`caps, this`graphs, this`layerGraphs, this`hidden, mem
      ensures Valid() && Ready() && Leaks() <= old(Leaks()) && old(bufs).Keys <= bufs.Keys
      ensures rc == 0 ==> StatesThere(op, bufs, caps)
      ensures NoneSmaller(old(caps), caps)
      ensures rc == 0 ==> (op.NeedsResid() ==> old(hidden).resident && old(hidden).len == op.embd) ==>
        hidden.resident == old(hidden).resident && hidden.len == old(hidden).len
      ensures !op.AttnOutNorm? && !op.MoeNorm? ==> hidden.moe == old(hidden).moe
      ensures op.Residual? && old(hidden) == NO_HIDDEN ==> hidden == NO_HIDDEN
      ensures RefusedFor(old(mem.refusals), rc == 0, op.NeedsResid() || op.AttnOutNorm? || op.MoeNorm? ==> op.embd > 0)
    {
      hide Backend.PointersLive, Backend.Bookkeeping, Backend.Leaks, Backend.Ready;
      rc := 0;
      if op.NeedsResid() {
        rc := PoolEnsureResid(op.embd);
        if rc != 0 { return; }
      }
      if op.AttnOutNorm? || op.MoeNorm? {
        rc := PoolEnsureMoeH(op.embd);
      }
    }

    /** The buffers an operation needs beyond what KVCacheInit gave. `on`: its input is the resident hidden state, which no
        growth on the way drops. */
    method EnsurePools(op: Op, on: bool) returns (rc: int)
      requires Valid() && Ready() && (on ==> hidden.resident)
      modifies this`bufs, this`caps, this`graphs, this`layerGraphs, this`hidden, mem
      ensures Valid() && Ready() && Leaks() <= old(Leaks())
      ensures rc == 0 ==> old(HiddenFits(op, on)) && CanSettle(op, bufs, caps)
      ensures rc == 0 ==> forall s: Slot :: op.Uses(s, on) ==> s in bufs
      ensures rc == 0 ==> Roomy(op, caps)
      ensures RefusedFor(old(mem.refusals), rc == 0, Positive(op) && old(HiddenFits(op, on)))
      ensures rc == 0 ==> HiddenKept(op, on, old(hidden), hidden)
    {
      hide Backend.PointersLive, Backend.Bookkeeping, Backend.Leaks, Backend.Ready, Op.Uses, Op.Rows, Op.Cols;
      hide StateFits, VectorsThere, StatesThere, Roomy, Positive, NoneSmaller, HiddenKept;
      if !HiddenFits(op, on) { return -20; }
      if Positive(op) { PositiveSizes(op); }
      rc := EnsureVectors(op);
      if rc != 0 { return; }
      ghost var bufs', caps' := bufs, caps;
      rc := EnsureStates(op);
      if rc != 0 { return; }
      VectorsStay(op, bufs', caps', bufs, caps);
      StillFits(op, on, old(hidden), hidden, kvReady);
      PoolsThere(op, on);
      return 0;
    }

    lemma PoolsThere(op: Op, on: bool)
      requires Ready() && HiddenFits(op, on) && (on && op.Qkv? ==> hidden.resident)
      requires VectorsThere(op, bufs, caps) && StatesThere(op, bufs, caps)
      ensures (forall s: Slot :: op.Uses(s, on) ==> s in bufs) && Roomy(op, caps) && CanSettle(op, bufs, caps)
    {
      hide BuffersReady, StateFits, VectorsThere, Roomy, Op.Uses;
      AllThere(op, on, bufs, caps, hidden, kvReady, kvLayers);
    }

    /** What a launch leaves of the hidden state: attention output keeps it on the device with a snapshot for the experts, a
        norm renews the snapshot, an embedding becomes it; a launch that fails after
        the first change to the residual, `dirty`, leaves no valid state. */
    method Settle(op: Op, on: bool) returns (ok: bool, dirty: bool)
      requires Valid() && Ready() && CanSettle(op, bufs, caps)
      modifies this`hidden, mem`refusals
      ensures Valid() && Ready() && Leaks() == old(Leaks())
      ensures RefusedFor(old(mem.refusals), ok, true)
      ensures ok ==> Settled(op, old(hidden), hidden)
      ensures !ok ==>
        hidden == if op.EmbedGather? then old(hidden).(resident := false)
                  else if on && dirty && (op.Residual? || op.AttnOutNorm?) then NO_HIDDEN
                  else old(hidden)
    {
      hide AllHeld, AllCurrent, BuffersLive, Kept, Loose;
      ok := mem.Ask();
      dirty := *;
      if !ok {
        if op.EmbedGather? {
          hidden := hidden.(resident := false);
        } else if on && (op.Residual? || op.AttnOutNorm?) {
          if dirty { hidden := NO_HIDDEN; }
        }
      } else if op.EmbedGather? {
        hidden := hidden.(resident := true, len := op.embd);
      } else if op.AttnOutNorm? {
        hidden := Hidden(true, op.embd, op.embd);
      } else if op.MoeNorm? {
        hidden := hidden.(moe := op.embd);
      }
    }

    /** Pools, graph or kernels, and what they leave, once the weights are there. */
    method Launched(op: Op, specs: seq<Spec>, ptrs: seq<Addr>, on: bool) returns (r: Launch, done: bool)
      requires Valid() && Ready() && (on ==> hidden.resident) && (op.Residual? && !on ==> hidden == NO_HIDDEN)
      requires WorkingSet(specs, ptrs, matrices) && |ptrs| == op.Arity(on)
      modifies this`bufs, this`caps, this`graphs, this`layerGraphs, this`attnGraphs, this`hidden, mem
      ensures Valid() && Ready() && Leaks() <= old(Leaks())
      ensures !r.Refused? ==> r.ptrs == ptrs && EachHeld(specs, ptrs, mem.live) && Roomy(op, caps)
      ensures !r.Refused? ==> forall s: Slot :: op.Uses(s, on) ==> s in bufs
      ensures RefusedFor(old(mem.refusals), done, Positive(op) && old(HiddenFits(op, on)))
      ensures !r.Refused? ==> RefusedFor(old(mem.refusals), r.Replayed?, op.Graphed())
      ensures r.Replayed? ==> op.Graphed() && r.key == op.KeyOf(ptrs, on) && Current(Graph(r.key, r.exec), mem.live, bufs)
      ensures done ==> !r.Refused? && Settled(op, old(hidden), hidden)
    {
      hide Backend.PointersLive, Backend.Bookkeeping, Backend.Leaks, BuffersReady, WorkingSet, EachHeld, Current;
      hide Op.Uses, Op.Arity, Op.KeyOf, Roomy, Positive, StateFits, CanSettle, HiddenKept, Settled;
      done := false;
      var rc := EnsurePools(op, on);
      if rc != 0 {
        if op.EmbedGather? { Forget(hidden.(resident := false)); }
        return Refused(rc), false;
      }
      SetHeld(specs, ptrs);
      ghost var mid := hidden;
      r := Start(op, ptrs, on);
      var dirty;
      done, dirty := Settle(op, on);
      if done { SettledFrom(op, on, old(hidden), mid, hidden); }
    }

    /** Any operation that ensures its weights, grows its pools, and launches a graph found or captured, or its kernels one by
        one. `host`: its input comes from host memory, which for the residual operations ends residency.
        At launch every pointer it obtained is live and its own weight, every buffer it uses is there and large enough, and a graph
        has each weight in its place and embeds exactly what a capture would embed now. What fits and has all its weights is not done
        only if something was refused, and what is done leaves the hidden state that it is for. */
    method Fused(op: Op, specs: seq<Spec>, host: bool) returns (r: Launch, done: bool)
      requires Valid() && Ready()
      requires ServesAll(specs, op.Wants(hidden.resident && !host)) && OneShapePerKey(specs)
      modifies this, mem
      ensures Valid() && Ready() && Leaks() <= old(Leaks())
      ensures !r.Refused? ==> EachHeld(specs, r.ptrs, mem.live)
      ensures !r.Refused? ==> forall s: Slot :: op.Uses(s, old(hidden.resident) && !host) ==> s in bufs
      ensures !r.Refused? ==> Roomy(op, caps)
      ensures done ==> !r.Refused? && Settled(op, Carried(op, old(hidden), host), hidden)
      ensures RefusedFor(old(mem.refusals), done,
                         && Positive(op) && old(Fits(op, hidden, kvReady, host))
                         && forall s <- specs :: s.shape.bytes > 0)
      ensures !r.Refused? ==> RefusedFor(old(mem.refusals), r.Replayed?, op.Graphed())
      ensures r.Replayed? ==> KeyFits(op, old(hidden.resident) && !host, specs, r.ptrs, r.key)
      ensures r.Replayed? ==> Current(Graph(r.key, r.exec), mem.live, bufs)
    {
      hide Backend.PointersLive, Backend.Bookkeeping, Backend.Leaks, BuffersReady, WorkingSet, EachHeld, Current;
      hide OneShapePerKey, Op.Uses, Op.Arity, Op.KeyOf, Op.Wants, Serves, KeyFits, IsFor, Roomy;
      hide Positive, Fits, StateFits, Backend.HostAccepts, Settled;
      var on := hidden.resident && !host;
      if !on && (op.Residual? || op.AttnOutNorm?) { Forget(NO_HIDDEN); }
      Acceptable(op, host, old(hidden));
      if !HostAccepts(op) { return Refused(-20), false; }
      op.ArityIsProtected(on);
      KeyAlwaysFits(op, on, specs);
      var held := EnsureAll(specs);
      if held.Err? { return Refused(held.error), false; }
      r, done := Launched(op, specs, held.value, on);
    }

    /** The checks let through what fits, also after a residual operation on host input has ended residency. */
    lemma Acceptable(op: Op, host: bool, was: Hidden)
      requires hidden == was || (hidden == NO_HIDDEN && !(was.resident && !host) && (op.Residual? || op.AttnOutNorm?))
      ensures Positive(op) && Fits(op, was, kvReady, host) ==> HostAccepts(op) && HiddenFits(op, was.resident && !host)
    {
    }

    /** A graph found or captured, or else the kernels one by one. */
    method Start(op: Op, ptrs: seq<Addr>, on: bool) returns (r: Launch)
      requires Valid() && |ptrs| == op.Arity(on)
      requires forall p <- ptrs :: p in mem.live && mem.live[p].payload.Weight?
      requires forall s: Slot :: op.Uses(s, on) ==> s in bufs
      modifies this`graphs, this`layerGraphs, this`attnGraphs, mem`refusals
      ensures Valid() && !r.Refused? && r.ptrs == ptrs && Leaks() == old(Leaks())
      ensures RefusedFor(old(mem.refusals), r.Replayed?, op.Graphed())
      ensures r.Replayed? ==> op.Graphed() && r.key == op.KeyOf(ptrs, on) && Current(Graph(r.key, r.exec), mem.live, bufs)
    {
      hide AllHeld, AllCurrent, BuffersLive, Kept, Current, Capturable, Operands, Op.Uses, Op.KeyOf, Op.Arity, Loose;
      r := Direct(ptrs);
      if op.Graphed() {
        op.CanCapture(ptrs, on, mem.live, bufs);
        var key := op.KeyOf(ptrs, on);
        var exec := FindOrCapture(key);
        if exec.Some? { r := Replayed(key, exec.value, ptrs); }
      }
    }

    /** Attention over one layer of the KV cache with a captured graph. */
    method Attention(layer: nat, seqLen: int, nHeads: int, nKvHeads: int, headDim: int, skipQ: bool, skipDst: bool) returns (r: Launch)
      requires Valid() && Ready()
      modifies this`graphs, this`layerGraphs, this`attnGraphs, mem`refusals
      ensures Valid() && Ready()
      ensures RefusedFor(old(mem.refusals), r.Replayed?, kvReady && layer < kvLayers)
      ensures r.Replayed? ==> kvReady && layer < kvLayers && Current(Graph(r.key, r.exec), mem.live, bufs)
      ensures r.Replayed? ==> {KvK(layer), KvV(layer)} <= bufs.Keys
      ensures r.Replayed? ==> r.key == AttnKey(bufs[KvK(layer)], bufs[KvV(layer)], seqLen, nHeads, nKvHeads, headDim, skipQ, skipDst)
    {
      hide AllHeld, AllCurrent, BuffersLive, Kept, Current, Capturable, Operands;
      if !kvReady || layer >= kvLayers { return Refused(-1); }
      KvCapturable(layer, kvLayers, mem.live, bufs);
      var key := AttnKey(bufs[KvK(layer)], bufs[KvV(layer)], seqLen, nHeads, nKvHeads, headDim, skipQ, skipDst);
      var exec := FindOrCapture(key);
      if exec.None? { return Direct([]); }
      return Replayed(key, exec.value, []);
    }
  }

  // ---------------------------------------------------------------------------------
  // Whole runs
  // ---------------------------------------------------------------------------------

  datatype Event =
    | RunOp(op: Op, specs: seq<Spec>, host: bool)
    | RunAttention(layer: nat, seqLen: int, nHeads: int, nKvHeads: int, headDim: int, skipQ: bool, skipDst: bool)
    | RunOneOff(rows: int, cols: int)
    | SetLimits(maxMatrices: int, maxBytes: int)
    | EvictName(name: string)
    | EvictPrefix(prefix: string)
    | InitKv(layers: int, maxSeq: int, kvDim: int, qElems: int, ropeHalf: int)
    | UploadHidden(n: int)
    | DownloadHidden(n: int)
    | Receive(n: int)
    | Send(n: int)

  /** One event; operations that no caller issues are skipped. */
  method Step(b: Backend, e: Event)
    requires b.Valid() && b.Ready()
    modifies b, b.mem
    ensures b.Valid() && b.Ready() && b.Leaks() <= old(b.Leaks())
  {
    hide AllHeld, AllCurrent, BuffersLive, Kept, AttnSlots, Loose, BuffersReady;
    match e {
      case RunOp(op, specs, host) =>
        if ServesAll(specs, op.Wants(b.hidden.resident && !host)) && OneShapePerKey(specs) {
          var _, _ := b.Fused(op, specs, host);
        }
      case RunAttention(layer, seqLen, nHeads, nKvHeads, headDim, skipQ, skipDst) =>
        var _ := b.Attention(layer, seqLen, nHeads, nKvHeads, headDim, skipQ, skipDst);
      case RunOneOff(rows, cols) => var _ := b.MatMulVec(rows, cols);
      case SetLimits(m, n) => b.SetWeightCacheLimits(m, n);
      case EvictName(name) => var _ := b.EvictQuantMatrix(name);
      case EvictPrefix(prefix) => var _ := b.EvictMatricesWithPrefix(prefix);
      case InitKv(layers, maxSeq, kvDim, qElems, ropeHalf) => var _ := b.KVCacheInit(layers, maxSeq, kvDim, qElems, ropeHalf);
      case UploadHidden(n) => var _ := b.HiddenUpload(n);
      case DownloadHidden(n) => var _ := b.HiddenDownload(n);
      case Receive(n) => var _ := b.PeerReceive(n);
      case Send(n) => var _ := b.PeerSend(n);
    }
  }

  /** In every state of every run the bookkeeping agrees, no table holds a graph with a dead or reused
      pointer, and no block is live that nothing owns unless it was so at the start. */
  method Run(b: Backend, events: seq<Event>)
    requires b.Valid() && b.Ready()
    modifies b, b.mem
    ensures b.Valid() && b.Ready() && b.Leaks() <= old(b.Leaks())
  {
    hide AllHeld, AllCurrent, BuffersLive, Kept, AttnSlots, Loose, BuffersReady;
    for i := 0 to |events|
      invariant b.Valid() && b.Ready() && b.Leaks() <= old(b.Leaks())
    {
      Step(b, events[i]);
    }
  }
}
