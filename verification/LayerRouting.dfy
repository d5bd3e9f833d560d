/** Layers on several devices: the resident hidden state follows the layers by peer copy or over the host. */
module LayerRouting {
  import opened Wrappers
  import opened LayerSplit

  type Hidden = seq<real>
  type Cache = seq<real>

  /** What one layer does to the hidden state and to its key-value cache. */
  type Update = (nat, Hidden, Cache) -> (Hidden, Cache)

  /** Outcomes of driver calls, fixed but unknown: copies, allocations and kernels of one device, and everything between peers. */
  class Links {
    const host: nat -> bool
    const peer: nat -> bool
    const disabledByEnv: bool
    var hostCalls: nat
    var peerCalls: nat

    constructor (host: nat -> bool, peer: nat -> bool, disabledByEnv: bool)
      ensures this.host == host && this.peer == peer && this.disabledByEnv == disabledByEnv
      ensures hostCalls == peerCalls == 0
    {
      this.host, this.peer, this.disabledByEnv := host, peer, disabledByEnv;
      hostCalls, peerCalls := 0, 0;
    }

    /** No host call between two moments failed. */
    ghost predicate HostFine(from: nat, to: nat) {
      forall c :: from <= c < to ==> host(c)
    }

    ghost predicate PeerFine(from: nat, to: nat) {
      forall c :: from <= c < to ==> peer(c)
    }

    method Host() returns (ok: bool)
      modifies this`hostCalls
      ensures hostCalls == old(hostCalls) + 1 && ok == host(old(hostCalls))
    {
      ok := host(hostCalls);
      hostCalls := hostCalls + 1;
    }

    method Peer() returns (ok: bool)
      modifies this`peerCalls
      ensures peerCalls == old(peerCalls) + 1 && ok == peer(old(peerCalls))
    {
      ok := peer(peerCalls);
      peerCalls := peerCalls + 1;
    }
  }

  /** Two answers tables that agree except on one device. */
  ghost predicate OnlyNews(was: map<Device, bool>, now: map<Device, bool>, about: Device) {
    now - {about} == was - {about}
  }

  ghost predicate Distinct(devs: seq<Device>) {
    forall i, j :: 0 <= i < |devs| && 0 <= j < |devs| && i != j ==> devs[i] != devs[j]
  }

  ghost predicate AllValid(devs: seq<Device>)
    reads devs
  {
    forall d :: d in devs ==> d.Valid()
  }

  /** What the devices remember about peer access. */
  ghost function Answers(devs: seq<Device>): (a: seq<map<Device, bool>>)
    reads devs
    ensures |a| == |devs| && forall i :: 0 <= i < |devs| ==> a[i] == devs[i].peers
  {
    seq(|devs|, i requires 0 <= i < |devs| reads devs => devs[i].peers)
  }

  /** Both devices of every pair remember the same. */
  ghost predicate AllAgree(devs: seq<Device>, answers: seq<map<Device, bool>>)
    requires |devs| == |answers|
  {
    forall i, j :: 0 <= i < |devs| && 0 <= j < |devs| && i != j ==> PairAgrees(answers[i], devs[i], answers[j], devs[j])
  }

  ghost predicate PairAgrees(a: map<Device, bool>, c: Device, b: map<Device, bool>, d: Device) {
    (d in a <==> c in b) && (d in a ==> a[d] == b[c])
  }

  lemma SameAnswer(was: map<Device, bool>, now: map<Device, bool>, about: Device, d: Device)
    requires OnlyNews(was, now, about)
    ensures d != about ==> (d in now <==> d in was) && (d in now ==> now[d] == was[d])
  {
    if d != about {
      assert d in now <==> d in now - {about};
      assert d in was <==> d in was - {about};
      if d in now { assert now[d] == (now - {about})[d]; }
    }
  }

  lemma OnePair(devs: seq<Device>, answers: seq<map<Device, bool>>, i: nat, j: nat)
    requires |devs| == |answers| && AllAgree(devs, answers) && i < |devs| && j < |devs| && i != j
    ensures PairAgrees(answers[i], devs[i], answers[j], devs[j])
  {
  }

  lemma AgreementKept(devs: seq<Device>, was: seq<map<Device, bool>>, now: seq<map<Device, bool>>, i: nat, j: nat)
    requires |devs| == |was| == |now| && Distinct(devs) && AllAgree(devs, was) && i < |devs| && j < |devs| && i != j
    requires PairAgrees(now[i], devs[i], now[j], devs[j])
    requires OnlyNews(was[i], now[i], devs[j]) && OnlyNews(was[j], now[j], devs[i])
    requires forall k :: 0 <= k < |devs| && k != i && k != j ==> now[k] == was[k]
    ensures AllAgree(devs, now)
  {
    hide OnlyNews;
    forall k, l | 0 <= k < |devs| && 0 <= l < |devs| && k != l ensures PairAgrees(now[k], devs[k], now[l], devs[l]) {
      assert PairAgrees(was[k], devs[k], was[l], devs[l]);
      SameAnswer(was[i], now[i], devs[j], devs[k]);
      SameAnswer(was[i], now[i], devs[j], devs[l]);
      SameAnswer(was[j], now[j], devs[i], devs[k]);
      SameAnswer(was[j], now[j], devs[i], devs[l]);
    }
  }

  /** The part of a device that layer routing touches. */
  class Device {
    const ordinal: int
    var hiddenResident: bool
    var residLen: nat
    var resid: Hidden
    var kv: seq<Cache>
    var peers: map<Device, bool>

    ghost predicate Valid()
      reads this
    {
      hiddenResident ==> residLen == |resid| > 0
    }

    constructor (ordinal: int)
      ensures this.ordinal == ordinal && !hiddenResident && kv == [] && peers == map[] && Valid()
    {
      this.ordinal := ordinal;
      hiddenResident, residLen, resid, kv, peers := false, 0, [], [], map[];
    }

    method ClearResidency()
      modifies this`hiddenResident, this`residLen
      ensures !hiddenResident && residLen == 0
    {
      hiddenResident, residLen := false, 0;
    }

    method HiddenUpload(links: Links, x: Hidden) returns (ok: bool)
      requires Valid()
      modifies this`hiddenResident, this`residLen, this`resid, links`hostCalls
      ensures Valid() && links.hostCalls >= old(links.hostCalls)
      ensures ok ==> hiddenResident && resid == x
      ensures !ok && x != [] ==> !hiddenResident
      ensures x != [] && links.HostFine(old(links.hostCalls), links.hostCalls) ==> ok
    {
      if |x| == 0 { return false; }
      ok := links.Host();
      if !ok {
        hiddenResident := false;
        return;
      }
      resid, residLen, hiddenResident := x, |x|, true;
    }

    /** Fetches n cells and ends the residency, even when the copy fails. */
    method HiddenDownload(links: Links, n: nat) returns (r: Option<Hidden>)
      requires Valid()
      modifies this`hiddenResident, this`residLen, links`hostCalls
      ensures Valid() && links.hostCalls >= old(links.hostCalls)
      ensures if n > 0 then !hiddenResident else hiddenResident == old(hiddenResident)
      ensures r.Some? ==> old(hiddenResident) && r.value == resid && |resid| == n
      ensures old(hiddenResident) && n == |resid| && links.HostFine(old(links.hostCalls), links.hostCalls) ==> r.Some?
    {
      if n == 0 { return None; }
      if !hiddenResident { return None; }
      var rightLen := residLen == n;
      ClearResidency();
      if !rightLen { return None; }
      var ok := links.Host();
      r := if ok then Some(resid) else None;
    }

    /** Both devices remember the same answer about their pair. */
    ghost predicate Agrees(other: Device)
      reads this, other
    {
      PairAgrees(peers, this, other.peers, other)
    }

    /** Peer access in both directions, probed once per pair. */
    method EnablePeer(links: Links, dst: Device) returns (ok: bool)
      requires this != dst && Agrees(dst)
      modifies this`peers, dst`peers, links`peerCalls
      ensures Agrees(dst) && dst in peers && peers[dst] == ok
      ensures old(dst in peers) ==> ok == old(peers)[dst] && links.peerCalls == old(links.peerCalls)
      ensures old(dst !in peers) ==> (ok <==> links.PeerFine(old(links.peerCalls), old(links.peerCalls) + 3))
      ensures old(dst !in peers) ==> (ok <==> links.PeerFine(old(links.peerCalls), links.peerCalls))
      ensures links.peerCalls >= old(links.peerCalls)
      ensures OnlyNews(old(peers), peers, dst) && OnlyNews(old(dst.peers), dst.peers, this)
    {
      if dst in peers { return peers[dst]; }
      ok := links.Peer();
      if ok { ok := links.Peer(); }
      if ok { ok := links.Peer(); }
      peers := peers[dst := ok];
      dst.peers := dst.peers[this := ok];
    }

    /** Is there a way to another device, as far as is known? */
    ghost predicate Reachable(links: Links, dst: Device)
      reads this, dst
    {
      this != dst && ordinal != dst.ordinal && !links.disabledByEnv && (dst in peers ==> peers[dst])
    }

    /** Moves the resident state, all or nothing: on any error this device still holds it. */
    method PeerCopyResidTo(links: Links, dst: Device, n: nat) returns (ok: bool)
      requires Valid() && dst.Valid() && (this != dst ==> Agrees(dst))
      modifies this`hiddenResident, this`residLen, this`peers, dst`hiddenResident, dst`residLen, dst`resid, dst`peers, links`peerCalls
      ensures Valid() && dst.Valid() && (this != dst ==> Agrees(dst))
      ensures ok ==> this != dst && !hiddenResident && dst.hiddenResident && dst.resid == old(resid) && |dst.resid| == n
      ensures !ok ==> hiddenResident == old(hiddenResident) && residLen == old(residLen) && resid == old(resid)
      ensures !ok && this != dst && !old(dst.hiddenResident) ==> !dst.hiddenResident
      ensures links.peerCalls >= old(links.peerCalls)
      ensures ok <==>
        && n > 0 && old(hiddenResident) && old(residLen) == n && old(Reachable(links, dst))
        && links.PeerFine(old(links.peerCalls), links.peerCalls)
      ensures OnlyNews(old(peers), peers, dst) && OnlyNews(old(dst.peers), dst.peers, this)
    {
      if n == 0 || this == dst || ordinal == dst.ordinal || links.disabledByEnv { return false; }
      if !hiddenResident { return false; }
      ok := EnablePeer(links, dst);
      if !ok { return; }
      var copied := false;
      if residLen == n { copied := links.Peer(); }
      if !copied {
        dst.ClearResidency();
        return false;
      }
      dst.resid := resid;
      ClearResidency();
      dst.hiddenResident, dst.residLen := true, n;
    }

    /** One layer on this device, with the cache at its local place. Its kernels can fail: before they changed the hidden state,
        which then stays, or after, which then ends residency; the cache may have been written by then. */
    method Apply(links: Links, f: Update, layer: nat, local: nat) returns (ok: bool)
      requires Valid() && hiddenResident && local < |kv| && |f(layer, resid, kv[local]).0| == |resid|
      modifies this`hiddenResident, this`residLen, this`resid, this`kv, links`hostCalls
      ensures Valid() && links.hostCalls >= old(links.hostCalls)
      ensures ok ==> hiddenResident && resid == f(layer, old(resid), old(kv[local])).0
      ensures ok ==> kv == old(kv)[local := f(layer, old(resid), old(kv[local])).1]
      ensures !ok ==> !hiddenResident || resid == old(resid)
      ensures !ok ==> kv == old(kv) || kv == old(kv)[local := f(layer, old(resid), old(kv[local])).1]
      ensures links.HostFine(old(links.hostCalls), links.hostCalls) ==> ok
    {
      var (h, c) := f(layer, resid, kv[local]);
      ok := links.Host();
      if ok {
        resid, kv := h, kv[local := c];
      } else {
        if * { kv := kv[local := c]; }
        if * { ClearResidency(); }
      }
    }

    method KVCacheInit(links: Links, layers: nat) returns (ok: bool)
      modifies this`kv, links`hostCalls
      ensures links.hostCalls >= old(links.hostCalls)
      ensures ok ==> kv == seq(layers, _ => [])
      ensures links.HostFine(old(links.hostCalls), links.hostCalls) ==> ok
    {
      ok := links.Host();
      if ok { kv := seq(layers, _ => []); }
    }
  }

  // ---------------------------------------------------------------------------------
  // One device: all layers in order
  // ---------------------------------------------------------------------------------

  /** Hidden state and caches after the first `upTo` layers. */
  function RunLayers(f: Update, h: Hidden, caches: seq<Cache>, upTo: nat): (r: (Hidden, seq<Cache>))
    requires upTo <= |caches|
    ensures |r.1| == |caches|
  {
    if upTo == 0 then (h, caches)
    else
      var before := RunLayers(f, h, caches, upTo - 1);
      OneLayer(f, upTo - 1, before.0, before.1)
  }

  function OneLayer(f: Update, layer: nat, h: Hidden, caches: seq<Cache>): (r: (Hidden, seq<Cache>))
    requires layer < |caches|
    ensures |r.1| == |caches|
  {
    var (h', c') := f(layer, h, caches[layer]);
    (h', caches[layer := c'])
  }

  /** A token with all its layers. */
  function RunToken(f: Update, x: Hidden, caches: seq<Cache>): (r: (Hidden, seq<Cache>))
    ensures |r.1| == |caches|
  {
    RunLayers(f, x, caches, |caches|)
  }

  /** Tokens one after the other. */
  function RunTokens(f: Update, xs: seq<Hidden>, caches: seq<Cache>): (r: (seq<Hidden>, seq<Cache>))
    ensures |r.1| == |caches|
  {
    if xs == [] then ([], caches)
    else
      var before := RunTokens(f, xs[..|xs| - 1], caches);
      var last := RunToken(f, xs[|xs| - 1], before.1);
      (before.0 + [last.0], last.1)
  }

  ghost predicate KeepsLength(f: Update) {
    forall l, h, c :: |f(l, h, c).0| == |h|
  }

  // ---------------------------------------------------------------------------------
  // Several devices
  // ---------------------------------------------------------------------------------

  /** Which devices hold a hidden state, and which. */
  ghost function Residency(devs: seq<Device>): (a: seq<(bool, Hidden)>)
    reads devs
    ensures |a| == |devs| && forall i :: 0 <= i < |devs| ==> a[i] == (devs[i].hiddenResident, devs[i].resid)
  {
    seq(|devs|, i requires 0 <= i < |devs| reads devs => (devs[i].hiddenResident, devs[i].resid))
  }

  ghost function Kvs(devs: seq<Device>): (a: seq<seq<Cache>>)
    reads devs
    ensures |a| == |devs| && forall i :: 0 <= i < |devs| ==> a[i] == devs[i].kv
  {
    seq(|devs|, i requires 0 <= i < |devs| reads devs => devs[i].kv)
  }

  /** Every device with layers has a cache for each of them. */
  ghost predicate Placed(bounds: seq<nat>, kvs: seq<seq<Cache>>) {
    |bounds| == |kvs| + 1 && forall i :: 0 <= i < |kvs| && Size(bounds, i) > 0 ==> |kvs[i]| == Size(bounds, i)
  }

  ghost function CacheAt(bounds: seq<nat>, kvs: seq<seq<Cache>>, layer: nat): Cache
    requires bounds != []
  {
    var d := Owner(bounds, layer);
    if d < |kvs| && bounds[d] <= layer && layer - bounds[d] < |kvs[d]| then kvs[d][layer - bounds[d]] else []
  }

  /** The caches in the order of the layers. */
  ghost function Caches(bounds: seq<nat>, kvs: seq<seq<Cache>>, layers: nat): (c: seq<Cache>)
    requires bounds != []
    ensures |c| == layers
  {
    seq(layers, l requires 0 <= l < layers => CacheAt(bounds, kvs, l))
  }

  /** Writing at a layer's place is writing that layer's cache and no other. */
  lemma CacheWritten(bounds: seq<nat>, kvs: seq<seq<Cache>>, layers: nat, layer: nat, c: Cache)
    requires Plan(bounds, |kvs|, layers) && Placed(bounds, kvs) && layer < layers
    ensures var d := Owner(bounds, layer);
      && d < |kvs| && bounds[d] <= layer && layer - bounds[d] < |kvs[d]| && kvs[d][layer - bounds[d]] == CacheAt(bounds, kvs, layer)
      && Placed(bounds, kvs[d := kvs[d][layer - bounds[d] := c]])
      && Caches(bounds, kvs[d := kvs[d][layer - bounds[d] := c]], layers) == Caches(bounds, kvs, layers)[layer := c]
      && Caches(bounds, kvs, layers)[layer] == CacheAt(bounds, kvs, layer)
  {
    hide OwnerFrom;
    PlaceInRange(bounds, |kvs|, layers, layer);
    var d := Owner(bounds, layer);
    var now := kvs[d := kvs[d][layer - bounds[d] := c]];
    forall l | 0 <= l < layers ensures CacheAt(bounds, now, l) == Caches(bounds, kvs, layers)[layer := c][l] {
      PlaceInRange(bounds, |kvs|, layers, l);
    }
  }

  /** One call of the peer mover. */
  datatype Attempt = Attempt(src: nat, dst: nat, ok: bool)

  predicate SamePair(a: Attempt, b: Attempt) {
    (a.src == b.src && a.dst == b.dst) || (a.src == b.dst && a.dst == b.src)
  }

  /** No pair is tried again once it failed, in either direction. */
  ghost predicate NoRetry(attempts: seq<Attempt>) {
    forall i, j :: 0 <= i < j < |attempts| && SamePair(attempts[i], attempts[j]) ==> attempts[i].ok
  }

  ghost predicate FailuresKnown(attempts: seq<Attempt>, broken: set<(nat, nat)>) {
    forall a :: a in attempts && !a.ok ==> (a.src, a.dst) in broken && (a.dst, a.src) in broken
  }

  lemma AttemptMade(attempts: seq<Attempt>, broken: set<(nat, nat)>, a: Attempt)
    requires NoRetry(attempts) && FailuresKnown(attempts, broken) && (a.src, a.dst) !in broken
    ensures NoRetry(attempts + [a])
    ensures FailuresKnown(attempts + [a], if a.ok then broken else broken + {(a.src, a.dst), (a.dst, a.src)})
  {
    forall i | 0 <= i < |attempts| && SamePair(attempts[i], a) ensures attempts[i].ok {
      assert attempts[i] in attempts;
    }
  }

  class MultiBackend {
    const devs: seq<Device>
    const split: seq<real>
    const round: real -> int
    const hasPeer: bool
    var peerBroken: set<(nat, nat)>
    var peerCopies: nat
    var hostCopies: nat
    var bounds: seq<nat>
    var layers: nat
    var cur: nat
    var hiddenLen: nat
    ghost var attempts: seq<Attempt>

    ghost predicate Valid()
      reads this, devs
    {
      && |devs| > 0 && Distinct(devs) && cur < |devs| && AllValid(devs) && AllAgree(devs, Answers(devs))
      && (bounds == [] || Plan(bounds, |devs|, layers))
      && NoRetry(attempts) && FailuresKnown(attempts, peerBroken)
    }

    /** Only the current device may hold the hidden state, at the length that was uploaded. */
    ghost predicate OnlyCurrent()
      reads this, devs
      requires cur < |devs|
    {
      && (forall i :: 0 <= i < |devs| && i != cur ==> !devs[i].hiddenResident)
      && (devs[cur].hiddenResident ==> |devs[cur].resid| == hiddenLen)
    }

    constructor (devs: seq<Device>, split: seq<real>, round: real -> int, hasPeer: bool)
      requires |devs| > 0 && Distinct(devs)
      requires forall i :: 0 <= i < |devs| ==> devs[i].Valid() && !devs[i].hiddenResident && devs[i].peers == map[]
      ensures Valid() && OnlyCurrent() && this.devs == devs && bounds == [] && peerCopies == hostCopies == 0
    {
      this.devs, this.split, this.round, this.hasPeer := devs, split, round, hasPeer;
      peerBroken, peerCopies, hostCopies, bounds, layers, cur, hiddenLen := {}, 0, 0, [], 0, 0, 0;
      attempts := [];
    }

    /** The owner of a layer; outside the plan the last device with layers, or the first device. */
    method DeviceForLayer(layer: int) returns (r: nat)
      requires Valid()
      ensures r < |devs|
      ensures bounds == [] || layer < 0 ==> r == 0
      ensures bounds != [] && 0 <= layer < layers ==> r == Owner(bounds, layer)
      ensures bounds != [] && layers <= layer ==> bounds[r] < bounds[r + 1] == layers || r == layers == 0
    {
      if |bounds| == 0 || layer < 0 { return 0; }
      var i := 0;
      while i < |devs|
        invariant 0 <= i <= |devs|
        invariant forall k :: 0 <= k < i ==> !Owns(bounds, k, layer)
      {
        if layer >= bounds[i] && layer < bounds[i + 1] {
          BoundsGrow(bounds, |devs|, layers, i + 1, |devs|);
          OwnerUnique(bounds, |devs|, layers, layer, i);
          return i;
        }
        i := i + 1;
      }
      if layer < layers { OwnerUnique(bounds, |devs|, layers, layer, 0); }
      while i > 0
        invariant 0 <= i <= |devs| && bounds[i] == layers
      {
        i := i - 1;
        if bounds[i + 1] > bounds[i] { return i; }
      }
      r := 0;
    }

    /** One call of the peer mover, unless the pair is known to be broken. */
    method TryPeer(links: Links, src: nat, dst: nat, from: Device, to: Device) returns (ok: bool)
      requires Valid() && src < |devs| && dst < |devs| && src != dst && from == devs[src] && to == devs[dst]
      modifies this`peerBroken, this`attempts, links`peerCalls
      modifies from`hiddenResident, from`residLen, from`peers, to`hiddenResident, to`residLen, to`resid, to`peers
      ensures Valid()
      ensures ok ==> !from.hiddenResident && to.hiddenResident && to.resid == old(from.resid) && |to.resid| == hiddenLen
      ensures !ok ==> from.hiddenResident == old(from.hiddenResident) && from.residLen == old(from.residLen)
      ensures !ok && !old(to.hiddenResident) ==> !to.hiddenResident
      ensures links.peerCalls >= old(links.peerCalls)
      ensures ok <==>
        && hasPeer && (src, dst) !in old(peerBroken)
        && hiddenLen > 0 && old(from.hiddenResident) && old(from.residLen) == hiddenLen && old(from.Reachable(links, to))
        && links.PeerFine(old(links.peerCalls), links.peerCalls)
    {
      hide NoRetry, FailuresKnown, Plan, AllAgree, OnlyNews, Links.PeerFine;
      if !hasPeer || (src, dst) in peerBroken { return false; }
      ghost var was := Answers(devs);
      assert PairAgrees(was[src], from, was[dst], to) by { OnePair(devs, was, src, dst); }
      ok := from.PeerCopyResidTo(links, to, hiddenLen);
      AgreementKept(devs, was, Answers(devs), src, dst);
      AttemptMade(attempts, peerBroken, Attempt(src, dst, ok));
      attempts := attempts + [Attempt(src, dst, ok)];
      if !ok {
        peerBroken := peerBroken + {(src, dst), (dst, src)};
      }
    }

    /** The host bounce: download from one device, upload to the other. */
    method HostMove(links: Links, from: Device, to: Device) returns (ok: bool)
      requires Valid() && from in devs && to in devs && from != to && from.hiddenResident && |from.resid| == hiddenLen > 0
      requires !to.hiddenResident
      modifies from`hiddenResident, from`residLen, to`hiddenResident, to`residLen, to`resid, links`hostCalls
      ensures Valid() && links.hostCalls >= old(links.hostCalls)
      ensures !from.hiddenResident && to.hiddenResident == ok
      ensures ok ==> to.resid == from.resid == old(from.resid)
      ensures links.HostFine(old(links.hostCalls), links.hostCalls) ==> ok
    {
      hide NoRetry, FailuresKnown, Plan, AllAgree, Distinct;
      ghost var answers := Answers(devs);
      var buf := from.HiddenDownload(links, hiddenLen);
      if buf.None? {
        assert Answers(devs) == answers;
        return false;
      }
      ok := to.HiddenUpload(links, buf.value);
      assert Answers(devs) == answers;
    }

    /** A way was open and every peer call since then went through. */
    ghost predicate ByPeer(links: Links, from: nat, open: bool)
      reads this, links
    {
      hasPeer && open && links.PeerFine(from, links.peerCalls)
    }

    /** By peer copy, else over the host. */
    method MoveActive(links: Links, dst: nat, from: Device, to: Device) returns (ok: bool)
      requires Valid() && cur != dst < |devs| && from == devs[cur] && to == devs[dst]
      requires from.hiddenResident && |from.resid| == hiddenLen > 0 && !to.hiddenResident
      modifies this`peerBroken, this`attempts, this`peerCopies, this`hostCopies, links
      modifies from`hiddenResident, from`residLen, from`peers, to`hiddenResident, to`residLen, to`resid, to`peers
      ensures Valid() && links.hostCalls >= old(links.hostCalls)
      ensures !from.hiddenResident && to.hiddenResident == ok
      ensures ok ==> to.resid == old(from.resid) && |to.resid| == hiddenLen
      ensures peerCopies + hostCopies == old(peerCopies + hostCopies) + if ok then 1 else 0
      ensures links.HostFine(old(links.hostCalls), links.hostCalls) ==> ok
      // The host is asked only where the peers do not do it.
      ensures ByPeer(links, old(links.peerCalls), old((cur, dst) !in peerBroken && from.Reachable(links, to))) ==>
        ok && peerCopies == old(peerCopies) + 1 && links.hostCalls == old(links.hostCalls)
      ensures ok && !ByPeer(links, old(links.peerCalls), old((cur, dst) !in peerBroken && from.Reachable(links, to))) ==>
        hostCopies == old(hostCopies) + 1
    {
      hide NoRetry, FailuresKnown, Plan, AllAgree, Answers, Links.HostFine, Links.PeerFine, Device.Reachable;
      ok := TryPeer(links, cur, dst, from, to);
      if ok {
        peerCopies := peerCopies + 1;
        return;
      }
      ok := HostMove(links, from, to);
      if ok { hostCopies := hostCopies + 1; }
    }

    /** Moves the hidden state to dst. Only a failing host call can lose it. */
    method MoveHidden(links: Links, dst: nat) returns (ok: bool)
      requires Valid() && OnlyCurrent() && cur != dst < |devs|
      modifies this`peerBroken, this`attempts, this`peerCopies, this`hostCopies, this`cur, devs, links
      ensures Valid() && OnlyCurrent() && Kvs(devs) == old(Kvs(devs)) && links.hostCalls >= old(links.hostCalls)
      ensures ok ==> cur == dst && devs[dst].hiddenResident == old(devs[cur].hiddenResident)
      ensures ok && devs[dst].hiddenResident ==> devs[dst].resid == old(devs[cur].resid)
      ensures peerCopies + hostCopies == old(peerCopies + hostCopies) + if ok && devs[cur].hiddenResident then 1 else 0
      ensures !ok ==> cur == old(cur) && !devs[cur].hiddenResident
      ensures links.HostFine(old(links.hostCalls), links.hostCalls) ==> ok
      ensures
        && old(devs[cur].hiddenResident)
        && ByPeer(links, old(links.peerCalls), old((cur, dst) !in peerBroken && devs[cur].Reachable(links, devs[dst])))
        ==>
        ok && peerCopies == old(peerCopies) + 1 && links.hostCalls == old(links.hostCalls)
      ensures
        && ok && old(devs[cur].hiddenResident)
        && !ByPeer(links, old(links.peerCalls), old((cur, dst) !in peerBroken && devs[cur].Reachable(links, devs[dst])))
        ==>
        hostCopies == old(hostCopies) + 1
    {
      hide NoRetry, FailuresKnown, Plan, AllAgree, Answers, Links.HostFine, Links.PeerFine, Device.Reachable;
      ghost var kvs := Kvs(devs);
      ok := true;
      assert devs[cur].Valid();
      if hiddenLen > 0 && devs[cur].hiddenResident {
        ok := MoveActive(links, dst, devs[cur], devs[dst]);
        assert Kvs(devs) == kvs;
      }
      if ok { cur := dst; }
    }

    /** The device and local place for a layer, with the hidden state moved there. */
    method Route(links: Links, layer: nat) returns (ok: bool, idx: nat, local: nat)
      requires Valid() && OnlyCurrent() && bounds != [] && layer < layers
      modifies this`peerBroken, this`attempts, this`peerCopies, this`hostCopies, this`cur, devs, links
      ensures Valid() && OnlyCurrent() && Kvs(devs) == old(Kvs(devs)) && links.hostCalls >= old(links.hostCalls)
      ensures ok ==> idx == cur == Owner(bounds, layer) && local == layer - bounds[idx]
      ensures ok ==> devs[cur].hiddenResident == old(devs[cur].hiddenResident)
      ensures ok && devs[cur].hiddenResident ==> devs[cur].resid == old(devs[cur].resid)
      ensures ok ==> peerCopies + hostCopies == old(peerCopies + hostCopies) + if devs[cur].hiddenResident && cur != old(cur) then 1 else 0
      ensures !ok ==> !devs[cur].hiddenResident
      ensures links.HostFine(old(links.hostCalls), links.hostCalls) ==> ok
    {
      hide NoRetry, FailuresKnown, AllAgree, Answers, Links.HostFine, AllValid;
      idx := DeviceForLayer(layer);
      ok := true;
      local := 0;
      if idx != cur {
        ok := MoveHidden(links, idx);
        if !ok { return; }
      }
      OwnerUnique(bounds, |devs|, layers, layer, idx);
      local := layer - bounds[idx];
    }

    /** Ends the residency of every device but one. */
    method DropStale(links: Links, first: nat)
      requires Distinct(devs) && AllValid(devs) && hiddenLen > 0
      modifies devs, links`hostCalls
      ensures AllValid(devs) && Kvs(devs) == old(Kvs(devs)) && Answers(devs) == old(Answers(devs)) && links.hostCalls >= old(links.hostCalls)
      ensures forall k :: 0 <= k < |devs| && k != first ==> !devs[k].hiddenResident
    {
      ghost var kvs, answers := Kvs(devs), Answers(devs);
      for i := 0 to |devs|
        invariant AllValid(devs) && Kvs(devs) == kvs && Answers(devs) == answers && links.hostCalls >= old(links.hostCalls)
        invariant forall k :: 0 <= k < i && k != first ==> !devs[k].hiddenResident
      {
        if i != first && devs[i].hiddenResident {
          var dropped := devs[i].HiddenDownload(links, hiddenLen);
          assert Kvs(devs) == kvs && Answers(devs) == answers;
        }
      }
    }

    /** The first layer's device gets x, every other device drops what it still held. */
    method HiddenUpload(links: Links, x: Hidden) returns (ok: bool)
      requires Valid()
      modifies this`hiddenLen, this`cur, devs, links
      ensures Valid() && Kvs(devs) == old(Kvs(devs)) && links.hostCalls >= old(links.hostCalls)
      ensures x != [] ==> OnlyCurrent() && devs[cur].hiddenResident == ok
      ensures x != [] && bounds != [] && layers > 0 ==> cur == Owner(bounds, 0)
      ensures ok ==> x != [] && devs[cur].resid == x
      ensures x == [] ==> !ok && hiddenLen == old(hiddenLen) && cur == old(cur)
      ensures x != [] && links.HostFine(old(links.hostCalls), links.hostCalls) ==> ok
    {
      hide NoRetry, FailuresKnown, AllAgree, Plan, AllValid, Kvs, Answers, Links.HostFine, OwnerFrom;
      if |x| == 0 { return false; }
      hiddenLen := |x|;
      var first := DeviceForLayer(0);
      ghost var c0 := links.hostCalls;
      DropStale(links, first);
      cur := first;
      ghost var c1 := links.hostCalls;
      ok := UploadAt(links, devs[first], x);
      FineParts(links, c0, c1, links.hostCalls);
    }

    method UploadAt(links: Links, dev: Device, x: Hidden) returns (ok: bool)
      requires Distinct(devs) && AllValid(devs) && dev in devs && x != []
      modifies dev`hiddenResident, dev`residLen, dev`resid, links`hostCalls
      ensures AllValid(devs) && Kvs(devs) == old(Kvs(devs)) && Answers(devs) == old(Answers(devs)) && links.hostCalls >= old(links.hostCalls)
      ensures dev.hiddenResident == ok && (ok ==> dev.resid == x)
      ensures forall k :: 0 <= k < |devs| && devs[k] != dev ==> devs[k].hiddenResident == old(devs[k].hiddenResident)
      ensures links.HostFine(old(links.hostCalls), links.hostCalls) ==> ok
    {
      ghost var kvs, answers := Kvs(devs), Answers(devs);
      ok := dev.HiddenUpload(links, x);
      assert Kvs(devs) == kvs && Answers(devs) == answers;
    }

    method HiddenDownload(links: Links) returns (r: Option<Hidden>)
      requires Valid() && OnlyCurrent()
      modifies devs, links
      ensures Valid() && OnlyCurrent() && Kvs(devs) == old(Kvs(devs)) && links.hostCalls >= old(links.hostCalls)
      ensures hiddenLen > 0 ==> !devs[cur].hiddenResident
      ensures r.Some? ==> old(devs[cur].hiddenResident) && r.value == old(devs[cur].resid)
      ensures old(devs[cur].hiddenResident) && links.HostFine(old(links.hostCalls), links.hostCalls) ==> r.Some?
    {
      hide NoRetry, FailuresKnown, AllAgree, Plan;
      ghost var kvs, answers := Kvs(devs), Answers(devs);
      assert devs[cur].Valid();
      r := devs[cur].HiddenDownload(links, hiddenLen);
      assert Kvs(devs) == kvs && Answers(devs) == answers;
    }

    /** A new plan with empty caches. The hidden state is not moved: it stays usable only on the first layer's device. */
    method KVCacheInit(links: Links, layers: int) returns (ok: bool)
      requires Valid()
      modifies this`bounds, this`layers, this`cur, devs, links
      ensures Valid() && links.hostCalls >= old(links.hostCalls)
      ensures ok ==> Plan(bounds, |devs|, this.layers) && Placed(bounds, Kvs(devs))
      ensures ok ==> this.layers == (if layers < 0 then 0 else layers) && (this.layers > 0 ==> cur == Owner(bounds, 0))
      ensures ok ==> forall l :: 0 <= l < this.layers ==> CacheAt(bounds, Kvs(devs), l) == []
      ensures !ok ==> bounds == old(bounds) && cur == old(cur)
      ensures Residency(devs) == old(Residency(devs))
      ensures links.HostFine(old(links.hostCalls), links.hostCalls) ==> ok
    {
      hide NoRetry, FailuresKnown, AllAgree, CacheAt, Placed, Plan, Links.HostFine, AllValid, Distinct, Answers, Kvs, Residency, Blank, OwnerFrom;
      var plan := LayerSplitBounds(layers, |devs|, split, round);
      ok := InitCaches(links, plan);
      if !ok { return; }
      EmptyCaches(plan, Kvs(devs), ClampLayers(layers));
      Adopt(plan, ClampLayers(layers));
    }

    method Adopt(plan: seq<nat>, layers: nat)
      requires Valid() && Plan(plan, |devs|, layers) && plan != []
      modifies this`bounds, this`layers, this`cur
      ensures Valid() && bounds == plan && this.layers == layers && (layers > 0 ==> cur == Owner(bounds, 0))
    {
      hide NoRetry, FailuresKnown, AllAgree, Plan, AllValid, Distinct, Answers;
      bounds, this.layers := plan, layers;
      cur := DeviceForLayer(0);
    }

    method InitCaches(links: Links, plan: seq<nat>) returns (ok: bool)
      requires Distinct(devs) && AllValid(devs) && |plan| == |devs| + 1
      modifies devs, links`hostCalls
      ensures AllValid(devs) && Answers(devs) == old(Answers(devs)) && links.hostCalls >= old(links.hostCalls)
      ensures Residency(devs) == old(Residency(devs))
      ensures ok ==> Blank(plan, Kvs(devs))
      ensures links.HostFine(old(links.hostCalls), links.hostCalls) ==> ok
    {
      ghost var answers, residency := Answers(devs), Residency(devs);
      for i := 0 to |devs|
        invariant Answers(devs) == answers && links.hostCalls >= old(links.hostCalls)
        invariant AllValid(devs) && Residency(devs) == residency
        invariant forall k :: 0 <= k < i && Size(plan, k) > 0 ==> devs[k].kv == seq(Size(plan, k), _ => [])
      {
        var n := Size(plan, i);
        if n > 0 {
          ok := devs[i].KVCacheInit(links, n);
          assert Answers(devs) == answers && Residency(devs) == residency;
          if !ok { return; }
        }
      }
      ok := true;
    }

    /** The caches of all layers, in layer order, wherever they are. */
    ghost function LayerCaches(): seq<Cache>
      reads this, devs
      requires bounds != []
    {
      Caches(bounds, Kvs(devs), layers)
    }

    /** A plan is set up, with a cache on its device for every layer. */
    ghost predicate Planned()
      reads this, devs
    {
      Valid() && bounds != [] && Placed(bounds, Kvs(devs))
    }

    /** One layer, on whichever device computes it: the effect is that of the layer on its own cache, or a call failed. */
    method Step(links: Links, layer: nat, f: Update) returns (ok: bool)
      requires Planned() && OnlyCurrent() && layer < layers && KeepsLength(f) && devs[cur].hiddenResident
      modifies this`peerBroken, this`attempts, this`peerCopies, this`hostCopies, this`cur, devs, links
      ensures Planned() && OnlyCurrent() && links.hostCalls >= old(links.hostCalls)
      ensures ok ==> devs[cur].hiddenResident && cur == Owner(bounds, layer)
      ensures ok ==> (devs[cur].resid, LayerCaches()) == OneLayer(f, layer, old(devs[cur].resid), old(LayerCaches()))
      ensures ok ==> peerCopies + hostCopies == old(peerCopies + hostCopies) + if cur != old(cur) then 1 else 0
      ensures links.HostFine(old(links.hostCalls), links.hostCalls) ==> ok
    {
      hide NoRetry, FailuresKnown, AllAgree, Plan, Links.HostFine, Placed, Caches, CacheAt, OwnerFrom, AllValid, Distinct, Kvs, Answers;
      var idx, local;
      ok, idx, local := Route(links, layer);
      if !ok { return; }
      ghost var kvs, x, c1 := Kvs(devs), devs[idx].resid, links.hostCalls;
      CacheWritten(bounds, kvs, layers, layer, f(layer, x, CacheAt(bounds, kvs, layer)).1);
      ok := ApplyAt(links, f, layer, local, devs[idx], kvs);
      FineParts(links, old(links.hostCalls), c1, links.hostCalls);
    }

    /** Runs a layer on one of the devices; the others do not notice. */
    method ApplyAt(links: Links, f: Update, layer: nat, local: nat, dev: Device, ghost kvs: seq<seq<Cache>>) returns (ok: bool)
      requires Valid() && OnlyCurrent() && dev == devs[cur] && dev.hiddenResident && KeepsLength(f)
      requires kvs == Kvs(devs) && local < |kvs[cur]|
      modifies dev`hiddenResident, dev`residLen, dev`resid, dev`kv, links`hostCalls
      ensures Valid() && OnlyCurrent() && links.hostCalls >= old(links.hostCalls)
      ensures ok ==> dev.hiddenResident && dev.resid == f(layer, old(dev.resid), kvs[cur][local]).0
      ensures var written := kvs[cur := kvs[cur][local := f(layer, old(dev.resid), kvs[cur][local]).1]];
        Kvs(devs) == written || (!ok && Kvs(devs) == kvs)
      ensures links.HostFine(old(links.hostCalls), links.hostCalls) ==> ok
    {
      hide NoRetry, FailuresKnown, AllAgree, Plan;
      ghost var answers := Answers(devs);
      ok := dev.Apply(links, f, layer, local);
      assert Answers(devs) == answers;
      if dev.kv == old(dev.kv) { assert Kvs(devs) == kvs; }
    }

    /** All layers in order. */
    method AllLayers(links: Links, f: Update) returns (ok: bool)
      requires Planned() && OnlyCurrent() && KeepsLength(f) && devs[cur].hiddenResident
      requires layers > 0 ==> cur == Owner(bounds, 0)
      modifies this`peerBroken, this`attempts, this`peerCopies, this`hostCopies, this`cur, devs, links
      ensures Planned() && OnlyCurrent() && links.hostCalls >= old(links.hostCalls)
      ensures ok ==> devs[cur].hiddenResident
      ensures ok ==> (devs[cur].resid, LayerCaches()) == RunLayers(f, old(devs[cur].resid), old(LayerCaches()), layers)
      ensures ok ==> peerCopies + hostCopies == old(peerCopies + hostCopies) + Changes(bounds, layers)
      ensures links.HostFine(old(links.hostCalls), links.hostCalls) ==> ok
    {
      hide NoRetry, FailuresKnown, AllAgree, Plan, Links.HostFine, Placed, Caches, CacheAt, OwnerFrom, KeepsLength, AllValid, Answers, Distinct, OneLayer, RunLayers, Changes, Kvs;
      ghost var x, caches, c0 := devs[cur].resid, LayerCaches(), links.hostCalls;
      RunNone(f, x, caches, bounds);
      for l := 0 to layers
        invariant Planned() && OnlyCurrent() && devs[cur].hiddenResident && c0 <= links.hostCalls
        invariant (devs[cur].resid, LayerCaches()) == RunLayers(f, x, caches, l)
        invariant layers > 0 ==> cur == Owner(bounds, if l == 0 then 0 else l - 1)
        invariant peerCopies + hostCopies == old(peerCopies + hostCopies) + Changes(bounds, l)
      {
        ghost var c := links.hostCalls;
        ok := Step(links, l, f);
        FineParts(links, c0, c, links.hostCalls);
        if !ok { return; }
        RunMore(f, x, caches, l);
        ChangesMore(bounds, l);
      }
      ok := true;
    }

    /** One token: upload, every layer in order, download. When it succeeds, the result and all caches are those of a
        single device, and the hidden state moved once per device change. Only a failing host call or kernel can make it fail. */
    method Token(links: Links, x: Hidden, f: Update) returns (r: Option<Hidden>)
      requires Planned() && KeepsLength(f) && x != []
      modifies this`peerBroken, this`attempts, this`peerCopies, this`hostCopies, this`cur, this`hiddenLen, devs, links
      ensures Planned() && OnlyCurrent() && links.hostCalls >= old(links.hostCalls)
      ensures r.Some? ==> (r.value, LayerCaches()) == RunToken(f, x, old(LayerCaches()))
      ensures r.Some? ==> peerCopies + hostCopies == old(peerCopies + hostCopies) + Changes(bounds, layers)
      ensures r.Some? ==> !devs[cur].hiddenResident
      ensures links.HostFine(old(links.hostCalls), links.hostCalls) ==> r.Some?
    {
      hide NoRetry, FailuresKnown, AllAgree, Plan, Links.HostFine, Placed, Caches, CacheAt, OwnerFrom, KeepsLength, AllValid, Answers, Distinct, RunLayers;
      ghost var c0 := links.hostCalls;
      var ok := HiddenUpload(links, x);
      if !ok { return None; }
      ghost var c1 := links.hostCalls;
      ok := AllLayers(links, f);
      FineParts(links, c0, c1, links.hostCalls);
      if !ok { return None; }
      ghost var c2 := links.hostCalls;
      CurrentValid();
      r := HiddenDownload(links);
      FineParts(links, c0, c2, links.hostCalls);
    }

    /** Any number of tokens: every output and all caches are those of a single device, whatever the split and whichever
        peer copies failed, and each token moves the hidden state once less than there are devices with layers. */
    method Tokens(links: Links, xs: seq<Hidden>, f: Update) returns (r: Option<seq<Hidden>>)
      requires Planned() && KeepsLength(f) && forall x :: x in xs ==> x != []
      modifies this`peerBroken, this`attempts, this`peerCopies, this`hostCopies, this`cur, this`hiddenLen, devs, links
      ensures Planned() && links.hostCalls >= old(links.hostCalls)
      ensures r.Some? ==> (r.value, LayerCaches()) == RunTokens(f, xs, old(LayerCaches()))
      ensures r.Some? ==> peerCopies + hostCopies == old(peerCopies + hostCopies) + Times(Boundaries(bounds), |xs|)
      ensures NoRetry(attempts)
      ensures links.HostFine(old(links.hostCalls), links.hostCalls) ==> r.Some?
    {
      hide FailuresKnown, AllAgree, Links.HostFine, Placed, Caches, CacheAt, OwnerFrom, KeepsLength, AllValid, Answers, Distinct,
        RunToken, Kvs, OnlyCurrent, Changes, Boundaries, Plan, NoRetry;
      var out := [];
      ghost var caches, c0 := LayerCaches(), links.hostCalls;
      ChangesTotal(bounds, |devs|, layers);
      for i := 0 to |xs|
        invariant Planned() && c0 <= links.hostCalls
        invariant (out, LayerCaches()) == RunTokens(f, xs[..i], caches)
        invariant peerCopies + hostCopies == old(peerCopies + hostCopies) + Times(Changes(bounds, layers), i)
      {
        ghost var c := links.hostCalls;
        assert xs[i] in xs;
        var y := Token(links, xs[i], f);
        FineParts(links, c0, c, links.hostCalls);
        if y.None? { return None; }
        assert xs[..i + 1][..i] == xs[..i];
        out := out + [y.value];
      }
      assert xs[..|xs|] == xs;
      r := Some(out);
    }

    lemma CurrentValid()
      requires Valid()
      ensures devs[cur].Valid()
    {
    }
  }

  lemma RunNone(f: Update, h: Hidden, caches: seq<Cache>, bounds: seq<nat>)
    requires bounds != []
    ensures RunLayers(f, h, caches, 0) == (h, caches) && Changes(bounds, 0) == 0
  {
  }

  lemma RunMore(f: Update, h: Hidden, caches: seq<Cache>, upTo: nat)
    requires upTo < |caches|
    ensures var r := RunLayers(f, h, caches, upTo);
      RunLayers(f, h, caches, upTo + 1) == OneLayer(f, upTo, r.0, r.1)
  {
  }

  lemma ChangesMore(bounds: seq<nat>, l: nat)
    requires bounds != []
    ensures Changes(bounds, l + 1) == Changes(bounds, l) + if l > 0 && Owner(bounds, l) != Owner(bounds, l - 1) then 1 else 0
  {
  }

  lemma FineParts(links: Links, a: nat, b: nat, c: nat)
    requires a <= b <= c
    ensures links.HostFine(a, c) <==> links.HostFine(a, b) && links.HostFine(b, c)
  {
  }

  /** Every device with layers has as many empty caches. */
  ghost predicate Blank(bounds: seq<nat>, kvs: seq<seq<Cache>>) {
    |bounds| == |kvs| + 1 && forall k :: 0 <= k < |kvs| && Size(bounds, k) > 0 ==> kvs[k] == seq(Size(bounds, k), _ => [])
  }

  lemma EmptyCaches(bounds: seq<nat>, kvs: seq<seq<Cache>>, layers: nat)
    requires Plan(bounds, |kvs|, layers) && Blank(bounds, kvs)
    ensures Placed(bounds, kvs) && forall l :: 0 <= l < layers ==> CacheAt(bounds, kvs, l) == []
  {
  }
}
