/** The least-recently-used order over all cached weights, with its index and byte counter. */
module LruOrder {
  import opened DeviceMemory

  const PROTECT: nat := 8

  ghost predicate NoDup(s: seq<Key>) {
    s == [] || (s[0] !in s[1..] && NoDup(s[1..]))
  }

  function Total(order: seq<Key>, size: map<Key, int>): int
    requires forall k <- order :: k in size
  {
    if order == [] then 0 else size[order[0]] + Total(order[1..], size)
  }

  function Without(order: seq<Key>, k: Key): (rest: seq<Key>)
    ensures |rest| == |order| - if k in order then 1 else 0
  {
    if order == [] then []
    else if order[0] == k then order[1..]
    else [order[0]] + Without(order[1..], k)
  }

  lemma {:induction false} WithoutKeeps(order: seq<Key>, k: Key, size: map<Key, int>)
    requires NoDup(order) && forall x <- order :: x in size
    ensures NoDup(Without(order, k))
    ensures forall x :: x in Without(order, k) <==> x in order && x != k
    ensures Total(order, size) == Total(Without(order, k), size) + if k in order then size[k] else 0
    ensures order != [] && order[|order| - 1] == k ==> Without(order, k) == order[..|order| - 1]
  {
    if order != [] {
      var tail := order[1..];
      assert order == [order[0]] + tail;
      if order[0] != k {
        WithoutKeeps(tail, k, size);
        var rest := Without(tail, k);
        assert Without(order, k) == [order[0]] + rest;
        assert ([order[0]] + rest)[1..] == rest;
        if order[|order| - 1] == k {
          assert order[..|order| - 1] == [order[0]] + tail[..|tail| - 1];
        }
      } else if |order| > 1 {
        assert order[|order| - 1] in tail;
      }
    }
  }

  lemma {:induction false} WithoutAbsent(order: seq<Key>, k: Key)
    requires k !in order
    ensures Without(order, k) == order
  {
    if order != [] { WithoutAbsent(order[1..], k); }
  }

  lemma {:induction false} TotalAgrees(order: seq<Key>, size: map<Key, int>, size': map<Key, int>)
    requires forall k <- order :: k in size && k in size' && size[k] == size'[k]
    ensures Total(order, size) == Total(order, size')
  {
    if order != [] { TotalAgrees(order[1..], size, size'); }
  }

  /** List, index and byte counter agree. */
  ghost predicate WellKept(order: seq<Key>, size: map<Key, int>, bytes: int) {
    NoDup(order) && (forall k :: k in order <==> k in size) && bytes == Total(order, size)
  }

  lemma {:induction false} UseKeeps(order: seq<Key>, size: map<Key, int>, bytes: int, k: Key)
    requires WellKept(order, size, bytes) && k in order
    ensures WellKept([k] + Without(order, k), size, bytes)
  {
    WithoutKeeps(order, k, size);
    assert ([k] + Without(order, k))[1..] == Without(order, k);
  }

  lemma {:induction false} DropKeeps(order: seq<Key>, size: map<Key, int>, bytes: int, k: Key)
    requires WellKept(order, size, bytes) && k in size
    ensures WellKept(Without(order, k), size - {k}, bytes - size[k])
  {
    WithoutKeeps(order, k, size);
    TotalAgrees(Without(order, k), size, size - {k});
  }

  /** An upload is tracked: the key moves or goes to the front with its new size. */
  lemma {:induction false} TrackKeeps(order: seq<Key>, size: map<Key, int>, bytes: int, k: Key, n: int)
    requires WellKept(order, size, bytes)
    ensures WellKept([k] + Without(order, k), size[k := n], bytes + n - if k in size then size[k] else 0)
  {
    if k in size {
      DropKeeps(order, size, bytes, k);
      AddKeeps(Without(order, k), size - {k}, bytes - size[k], k, n);
      assert (size - {k})[k := n] == size[k := n];
    } else {
      WithoutAbsent(order, k);
      AddKeeps(order, size, bytes, k, n);
    }
  }

  lemma {:induction false} AddKeeps(order: seq<Key>, size: map<Key, int>, bytes: int, k: Key, n: int)
    requires WellKept(order, size, bytes) && k !in size
    ensures WellKept([k] + order, size[k := n], bytes + n)
  {
    TotalAgrees(order, size, size[k := n]);
    assert ([k] + order)[1..] == order;
  }

  lemma SameKeys(order: seq<Key>, size: map<Key, int>, bytes: int)
    requires WellKept(order, size, bytes)
    ensures forall k :: k in order <==> k in size
  {
  }

  lemma AbsentStays(order: seq<Key>, size: map<Key, int>, bytes: int, k: Key)
    requires WellKept(order, size, bytes) && k !in size
    ensures Without(order, k) == order
  {
    WithoutAbsent(order, k);
  }

  /** Taking out the key at the back leaves the rest of the order as it was. */
  lemma LastGoes(order: seq<Key>, size: map<Key, int>, bytes: int)
    requires WellKept(order, size, bytes) && order != []
    ensures var last := order[|order| - 1];
      && Without(order, last) == order[..|order| - 1]
      && last !in order[..|order| - 1]
  {
    WithoutKeeps(order, order[|order| - 1], size);
  }

  /** The total without the precondition of Total. */
  function Sum(order: seq<Key>, size: map<Key, int>): int {
    if forall k <- order :: k in size then Total(order, size) else 0
  }

  /** Both caps hold; a cap of 0 or less is none. */
  predicate CapsHold(maxEntries: int, maxBytes: int, entries: nat, bytes: int) {
    (maxEntries > 0 ==> entries <= maxEntries) && (maxBytes > 0 ==> bytes <= maxBytes)
  }

  lemma ExceedsIs(maxEntries: int, maxBytes: int)
    ensures forall entries, bytes :: Exceeds(maxEntries, maxBytes, entries, bytes) <==> !CapsHold(maxEntries, maxBytes, entries, bytes)
  {
  }

  predicate Exceeds(maxEntries: int, maxBytes: int, entries: nat, bytes: int) {
    (maxEntries > 0 && entries > maxEntries) || (maxBytes > 0 && bytes > maxBytes)
  }

  /** The order after `k` was used and then a tail was evicted: the PROTECT most recent keys stay. */
  ghost predicate UsedThenEvicted(was: seq<Key>, k: Key, now: seq<Key>) {
    var used := [k] + Without(was, k);
    now <= used && (now == used || |now| >= PROTECT)
  }

  lemma UsedNow(was: seq<Key>, k: Key)
    ensures UsedThenEvicted(was, k, [k] + Without(was, k))
    ensures Without([k] + Without(was, k), k) == Without(was, k)
  {
    assert ([k] + Without(was, k))[1..] == Without(was, k);
  }

  /** Eviction for an upload, then tracking it, is one use with one eviction. */
  lemma EvictedThenUsed(was: seq<Key>, size: map<Key, int>, bytes: int, k: Key, mid: seq<Key>, now: seq<Key>)
    requires WellKept(was, size, bytes)
    requires mid <= Without(was, k) && (mid == Without(was, k) || |mid| >= PROTECT)
    requires UsedThenEvicted(mid, k, now)
    ensures UsedThenEvicted(was, k, now)
  {
    WithoutKeeps(was, k, size);
    assert k !in mid;
    WithoutAbsent(mid, k);
  }

  /** `x` is one of the first `n` keys. */
  ghost predicate Recent(order: seq<Key>, n: nat, x: Key) {
    n > 0 && order != [] && (order[0] == x || Recent(order[1..], n - 1, x))
  }

  lemma {:induction false} RecentIsIn(order: seq<Key>, n: nat, x: Key)
    requires Recent(order, n, x)
    ensures x in order
  {
    if order[0] != x { RecentIsIn(order[1..], n - 1, x); }
  }

  lemma {:induction false} RecentLonger(order: seq<Key>, n: nat, x: Key)
    requires Recent(order, n, x)
    ensures Recent(order, n + 1, x)
  {
    if order[0] != x { RecentLonger(order[1..], n - 1, x); }
  }

  lemma {:induction false} RecentWithout(order: seq<Key>, k: Key, n: nat, x: Key)
    requires Recent(order, n, x) && x != k
    ensures Recent(Without(order, k), n, x)
  {
    if order[0] == k {
      RecentLonger(order[1..], n - 1, x);
    } else if order[0] != x {
      RecentWithout(order[1..], k, n - 1, x);
      assert Without(order, k)[1..] == Without(order[1..], k);
    }
  }

  lemma {:induction false} RecentPrefix(order: seq<Key>, m: nat, n: nat, x: Key)
    requires Recent(order, n, x) && n <= m <= |order|
    ensures Recent(order[..m], n, x)
  {
    if order[0] != x {
      RecentPrefix(order[1..], m - 1, n - 1, x);
      assert order[..m][1..] == order[1..][..m - 1];
    }
  }

  /** Using one more key keeps every key used so far recent, for up to PROTECT keys. */
  lemma {:induction false} UsedStayRecent(was: seq<Key>, k: Key, now: seq<Key>, n: nat, x: Key)
    requires UsedThenEvicted(was, k, now) && n < PROTECT
    requires x == k || Recent(was, n, x)
    ensures Recent(now, n + 1, x)
  {
    var used := [k] + Without(was, k);
    if x != k {
      RecentWithout(was, k, n, x);
      assert used[1..] == Without(was, k);
    }
    if now != used {
      RecentPrefix(used, |now|, n + 1, x);
      assert now == used[..|now|];
    }
  }
}
