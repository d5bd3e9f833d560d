/** Device and host memory that reuses addresses, and what the blocks in it are for. */
module DeviceMemory {
  import opened Wrappers

  /** A device or host address; number 0 is the null pointer. */
  datatype Addr = Device(n: nat) | Host(n: nat)

  const NULL: Addr := Device(0)

  datatype Kind = F32 | Q8_0 | Q4_0 | Q4_K | Q5_K | Q6_K | Q4_1 | Q5_0 | Q5_1 | Q2_K | Q3_K | Q8_K

  datatype Key = Key(kind: Kind, name: string)

  datatype Shape = Shape(rows: int, cols: int, bytes: int)

  /** The buffers of the two pools and of the KV cache. */
  datatype Slot =
    | DVec | DOut | DAux | DResid | DMoeH | HVec | HOut | HResid
    | AQ | ADst | AScores | AKTok | AVTok | ACos | ASin | HCos | HSin
    | KvK(layer: nat) | KvV(layer: nat)
  {
    /** Owned by the matmul pool (the others belong to the attention pool and the KV cache)? */
    predicate InMatmulPool() {
      DVec? || DOut? || DAux? || DResid? || DMoeH? || HVec? || HOut? || HResid?
    }

    predicate OnHost() { HVec? || HOut? || HResid? || HCos? || HSin? }
  }

  /** What a live block is for. */
  datatype Payload = Weight(key: Key, shape: Shape) | Buffer(slot: Slot) | Temporary

  /** A live block; the serial number tells apart successive blocks at one address. */
  datatype Block = Block(serial: nat, payload: Payload)

  class Memory {
    var live: map<Addr, Block>
    var serial: nat
    // History, not in the program: how often was something refused so far?
    ghost var refusals: nat
    // And how often of those was there no memory?
    ghost var shortages: nat

    constructor ()
      ensures live == map[]
    {
      live, serial, refusals, shortages := map[], 0, 0, 0;
    }

    /** May fail, and may hand out an address that was live before. */
    method Alloc(onHost: bool, payload: Payload) returns (r: Option<Addr>)
      modifies this
      ensures refusals == old(refusals) + if r.None? then 1 else 0
      ensures shortages == old(shortages) + if r.None? then 1 else 0
      ensures r.None? ==> live == old(live)
      ensures r.Some? ==>
        && r.value !in old(live) && r.value.n != 0
        && live == old(live)[r.value := Block(old(serial), payload)]
    {
      if * {
        refusals, shortages := refusals + 1, shortages + 1;
        return None;
      }
      FreshAddress(live.Keys, onHost);
      var n: nat :| n != 0 && (if onHost then Host(n) else Device(n)) !in live;
      var a := if onHost then Host(n) else Device(n);
      live := live[a := Block(serial, payload)];
      serial := serial + 1;
      r := Some(a);
    }

    /** Anything else that can be refused: a copy, or a host table outside this model's blocks. */
    method Ask() returns (ok: bool)
      modifies this`refusals
      ensures refusals == old(refusals) + if ok then 0 else 1
    {
      ok := *;
      if !ok { refusals := refusals + 1; }
    }

    method Free(a: Addr)
      modifies this`live
      ensures live == old(live) - {a}
    {
      live := live - {a};
    }
  }

  lemma {:induction false} FreshAddress(taken: set<Addr>, onHost: bool)
    ensures exists n: nat :: n != 0 && (if onHost then Host(n) else Device(n)) !in taken
  {
    var bound := Bound(taken);
    assert (if onHost then Host(bound) else Device(bound)) !in taken;
  }

  lemma {:induction false} Bound(taken: set<Addr>) returns (bound: nat)
    ensures bound > 0 && forall a <- taken :: a.n < bound
  {
    if taken == {} { return 1; }
    var a :| a in taken;
    var rest := Bound(taken - {a});
    bound := if a.n < rest then rest else a.n + 1;
    assert forall b <- taken :: b == a || b in taken - {a};
  }
}
