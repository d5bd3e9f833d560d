/** Token buckets per client, with idle buckets swept away. Times are seconds. A request carries the clock reading it
    took before the lock, so readings may reach the limiter out of order. */
module RateLimiter {
  import opened Wrappers

  type Key = string

  const SWEEP_EVERY: real := 300.0
  const IDLE: real := 600.0

  datatype Bucket = Bucket(tokens: real, last: real, lastSeen: real)

  datatype Answer = Answer(remaining: int, ok: bool)

  /** int(x) of Go: truncation toward zero. */
  function Trunc(x: real): int {
    if x >= 0.0 then x.Floor else -((-x).Floor)
  }

  datatype Limits = Limits(perMinute: int) {
    predicate Valid() { 1 <= perMinute }

    function Rate(): real { perMinute as real / 60.0 }

    /** Tokens that come in during dt. */
    function Refill(dt: real): real { dt * Rate() }

    function Burst(): real { if perMinute as real < 1.0 then 1.0 else perMinute as real }
  }

  function Least(a: real, b: real): real { if a > b then b else a }

  // ---------------------------------------------------------------------------------
  // One bucket
  // ---------------------------------------------------------------------------------

  /** What a request finds in its bucket: a new bucket is full, an old one refills at the rate up to the burst. */
  function Filled(l: Limits, b: Option<Bucket>, now: real): real {
    match b
    case None => l.Burst()
    case Some(b) => Least(b.tokens + l.Refill(now - b.last), l.Burst())
  }

  /** One token is taken if there is one. */
  predicate Admits(l: Limits, b: Option<Bucket>, now: real) {
    b.None? || Filled(l, b, now) >= 1.0
  }

  function Taken(l: Limits, b: Option<Bucket>, now: real): Bucket {
    Bucket(Filled(l, b, now) - if Admits(l, b, now) then 1.0 else 0.0, now, now)
  }

  function Reply(l: Limits, b: Option<Bucket>, now: real): Answer {
    if Admits(l, b, now) then Answer(Trunc(Filled(l, b, now) - 1.0), true) else Answer(0, false)
  }

  /** A request in numbers: a bucket never seen holds a minute's requests, another one what it held and a sixtieth of them for
      every second since, up to as many again. A whole token is taken if there is one, and the answer says how many whole ones are left. */
  lemma ServedIs(l: Limits, b: Option<Bucket>, now: real)
    requires l.Valid()
    ensures var full := l.perMinute as real;
      var refilled := if b.None? then full else b.value.tokens + (now - b.value.last) * (full / 60.0);
      var tokens := if refilled > full then full else refilled;
      var (reply, after) := (Reply(l, b, now), Taken(l, b, now));
      && after.last == now && after.lastSeen == now
      && (reply.ok <==> tokens >= 1.0)
      && (reply.ok ==> after.tokens == tokens - 1.0 && reply.remaining as real <= tokens - 1.0 < reply.remaining as real + 1.0)
      && (reply.ok ==> 0 <= reply.remaining < l.perMinute)
      && (!reply.ok ==> after.tokens == tokens && reply.remaining == 0)
  {
  }

  lemma TakenNow(l: Limits, b: Option<Bucket>, now: real)
    ensures Taken(l, b, now).last == Taken(l, b, now).lastSeen == now
  {
  }

  /** The same answer, and the same bucket left behind. */
  predicate SameService(l: Limits, a: Option<Bucket>, b: Option<Bucket>, now: real) {
    Reply(l, a, now) == Reply(l, b, now) && Taken(l, a, now) == Taken(l, b, now)
  }

  /** A lost bucket is not missed if and only if it would be full again. */
  lemma LostIsFull(l: Limits, b: Bucket, now: real)
    requires l.Valid()
    ensures SameService(l, None, Some(b), now) <==> b.tokens + (now - b.last) * (l.perMinute as real / 60.0) >= l.perMinute as real
    ensures SameService(l, None, Some(b), now) <==> b.tokens + l.Refill(now - b.last) >= l.Burst()
  {
    assert l.Refill(now - b.last) == (now - b.last) * (l.perMinute as real / 60.0);
    hide Limits.Refill;
    if b.tokens + l.Refill(now - b.last) < l.Burst() && Admits(l, Some(b), now) {
      assert Taken(l, Some(b), now).tokens < Taken(l, None, now).tokens;
    }
  }

  lemma RefillGrows(l: Limits, a: real, b: real)
    requires l.Valid() && a <= b
    ensures l.Refill(a) <= l.Refill(b) && l.Refill(0.0) == 0.0
  {
    var r := l.Rate();
    assert r >= 0.0;
    assert (b - a) * r >= 0.0;
  }

  lemma RefillSum(l: Limits, a: real, b: real)
    ensures l.Refill(a) + l.Refill(b) == l.Refill(a + b)
  {
  }

  /** A minute fills any bucket. */
  lemma MinuteFills(l: Limits)
    requires l.Valid()
    ensures l.Refill(60.0) == l.Burst() == l.perMinute as real
  {
  }

  // ---------------------------------------------------------------------------------
  // A limiter that never sweeps
  // ---------------------------------------------------------------------------------

  function Find(clients: map<Key, Bucket>, key: Key): Option<Bucket> {
    if key in clients then Some(clients[key]) else None
  }

  datatype Request = Request(key: Key, now: real)

  /** All buckets after a run, none ever removed. */
  function Buckets(l: Limits, rs: seq<Request>): map<Key, Bucket> {
    if rs == [] then map[]
    else
      var before := Buckets(l, rs[..|rs| - 1]);
      var r := rs[|rs| - 1];
      before[r.key := Taken(l, Find(before, r.key), r.now)]
  }

  /** The bucket request i would find if none were swept. */
  function Kept(l: Limits, rs: seq<Request>, i: nat): Option<Bucket>
    requires i < |rs|
  {
    Find(Buckets(l, rs[..i]), rs[i].key)
  }

  function UnsweptAnswers(l: Limits, rs: seq<Request>): (answers: seq<Answer>)
    ensures |answers| == |rs|
  {
    seq(|rs|, i requires 0 <= i < |rs| => Reply(l, Kept(l, rs, i), rs[i].now))
  }

  /** How often a client was admitted with readings from s to t. */
  function Admissions(rs: seq<Request>, answers: seq<Answer>, key: Key, s: real, t: real): nat
    requires |answers| == |rs|
  {
    if rs == [] then 0
    else
      var n := |rs| - 1;
      Admissions(rs[..n], answers[..n], key, s, t) + if rs[n].key == key && s <= rs[n].now <= t && answers[n].ok then 1 else 0
  }

  /** Requests a limit allows in an interval of dt seconds: as many as in a minute, and a sixtieth of them more every second. */
  function Allowance(perMinute: int, dt: real): real {
    perMinute as real + perMinute as real * dt / 60.0
  }

  lemma AllowanceIs(l: Limits, dt: real)
    requires l.Valid()
    ensures l.Burst() + l.Refill(dt) == Allowance(l.perMinute, dt)
  {
  }

  /** No client gets more than that in any interval. */
  ghost predicate Bounded(l: Limits, rs: seq<Request>, answers: seq<Answer>)
    requires |answers| == |rs|
  {
    forall key, s, t :: s <= t ==> Admissions(rs, answers, key, s, t) as real <= Allowance(l.perMinute, t - s)
  }

  lemma UnsweptPrefix(l: Limits, rs: seq<Request>, n: nat)
    requires n <= |rs|
    ensures UnsweptAnswers(l, rs)[..n] == UnsweptAnswers(l, rs[..n])
  {
    assert forall i :: 0 <= i < n ==> rs[..n][..i] == rs[..i];
  }

  /** The last request of a run, without sweeping. */
  lemma LastUnswept(l: Limits, rs: seq<Request>, key: Key, s: real, t: real)
    requires rs != []
    ensures var n := |rs| - 1; var r := rs[n]; var b := Find(Buckets(l, rs[..n]), r.key);
      && Buckets(l, rs) == Buckets(l, rs[..n])[r.key := Taken(l, b, r.now)]
      && Admissions(rs, UnsweptAnswers(l, rs), key, s, t) ==
        Admissions(rs[..n], UnsweptAnswers(l, rs[..n]), key, s, t)
        + if r.key == key && s <= r.now <= t && Admits(l, b, r.now) then 1 else 0
  {
    hide Admits;
    UnsweptPrefix(l, rs, |rs| - 1);
  }

  lemma LedgerStep(l: Limits, b: Option<Bucket>, now: real, s: real, before: nat)
    requires l.Valid()
    requires before == 0 || (b.Some? && before as real <= l.Burst() + l.Refill(b.value.last - s) - b.value.tokens)
    ensures before > 0 ==>
      (before + if Admits(l, b, now) then 1 else 0) as real <= l.Burst() + l.Refill(now - s) - Taken(l, b, now).tokens
    ensures before == 0 && s <= now && Admits(l, b, now) ==> 1.0 <= l.Burst() + l.Refill(now - s) - Taken(l, b, now).tokens
  {
    hide Limits.Refill;
    if before > 0 {
      RefillSum(l, now - b.value.last, b.value.last - s);
      assert now - b.value.last + (b.value.last - s) == now - s;
    } else if s <= now {
      RefillGrows(l, 0.0, now - s);
    }
  }

  /** Admissions since s, the tokens left, and what the time since s has paid for; readings in any order. */
  lemma {:induction false} Ledger(l: Limits, rs: seq<Request>, key: Key, s: real, t: real)
    requires l.Valid()
    ensures Admissions(rs, UnsweptAnswers(l, rs), key, s, t) == 0
      || (key in Buckets(l, rs)
          && Admissions(rs, UnsweptAnswers(l, rs), key, s, t) as real
            <= l.Burst() + l.Refill(Buckets(l, rs)[key].last - s) - Buckets(l, rs)[key].tokens)
  {
    hide Limits.Refill, Taken, Admits, UnsweptAnswers, Buckets, Admissions;
    if rs == [] {
      NothingAdmitted(l, key, s, t);
    } else {
      var n := |rs| - 1;
      Ledger(l, rs[..n], key, s, t);
      LastUnswept(l, rs, key, s, t);
      if rs[n].key == key {
        var b := Find(Buckets(l, rs[..n]), key);
        LedgerStep(l, b, rs[n].now, s, Admissions(rs[..n], UnsweptAnswers(l, rs[..n]), key, s, t));
        TakenNow(l, b, rs[n].now);
      }
    }
  }

  lemma NothingAdmitted(l: Limits, key: Key, s: real, t: real)
    ensures Admissions([], UnsweptAnswers(l, []), key, s, t) == 0
  {
  }

  /** Whoever is admitted leaves no debt. */
  lemma AdmittedOwesNothing(l: Limits, b: Option<Bucket>, now: real)
    requires l.Valid() && Admits(l, b, now)
    ensures Taken(l, b, now).tokens >= 0.0
  {
  }

  /** The admission bound for every run, every client and every interval. */
  lemma AdmissionBound(l: Limits, rs: seq<Request>, key: Key, s: real, t: real)
    requires l.Valid() && s <= t
    ensures Admissions(rs, UnsweptAnswers(l, rs), key, s, t) as real <= Allowance(l.perMinute, t - s)
  {
    hide Limits.Refill, Limits.Burst, UnsweptAnswers, Admissions, Allowance;
    BurstAndRate(l, rs, key, s, t);
    AllowanceIs(l, t - s);
  }

  lemma {:induction false} BurstAndRate(l: Limits, rs: seq<Request>, key: Key, s: real, t: real)
    requires l.Valid() && s <= t
    ensures Admissions(rs, UnsweptAnswers(l, rs), key, s, t) as real <= l.Burst() + l.Refill(t - s)
  {
    hide Limits.Refill, Taken, Admits, UnsweptAnswers, Buckets, Admissions;
    RefillGrows(l, 0.0, t - s);
    if rs == [] {
      NothingAdmitted(l, key, s, t);
    } else {
      var n := |rs| - 1;
      var b := Find(Buckets(l, rs[..n]), rs[n].key);
      LastUnswept(l, rs, key, s, t);
      if rs[n].key == key && s <= rs[n].now <= t && Admits(l, b, rs[n].now) {
        Ledger(l, rs, key, s, t);
        TakenNow(l, b, rs[n].now);
        AdmittedOwesNothing(l, b, rs[n].now);
        RefillGrows(l, rs[n].now - s, t - s);
      } else {
        BurstAndRate(l, rs[..n], key, s, t);
      }
    }
  }

  // ---------------------------------------------------------------------------------
  // The limiter that sweeps
  // ---------------------------------------------------------------------------------

  datatype Table = Table(clients: map<Key, Bucket>, lastSweep: real)

  /** Every five minutes the buckets idle for more than ten go. */
  function Swept(t: Table, now: real): Table {
    if now - t.lastSweep > SWEEP_EVERY then
      Table(map k | k in t.clients && !(now - t.clients[k].lastSeen > IDLE) :: t.clients[k], now)
    else t
  }

  function Serving(l: Limits, t: Table, r: Request): Table {
    var u := Swept(t, r.now);
    u.(clients := u.clients[r.key := Taken(l, Find(u.clients, r.key), r.now)])
  }

  /** The table after a run that began with an empty table at `start`. */
  function After(l: Limits, start: real, rs: seq<Request>): Table {
    if rs == [] then Table(map[], start)
    else Serving(l, After(l, start, rs[..|rs| - 1]), rs[|rs| - 1])
  }

  /** The table request i is answered from, and its bucket there. */
  function TableAt(l: Limits, start: real, rs: seq<Request>, i: nat): Table
    requires i < |rs|
  {
    Swept(After(l, start, rs[..i]), rs[i].now)
  }

  function Found(l: Limits, start: real, rs: seq<Request>, i: nat): Option<Bucket>
    requires i < |rs|
  {
    Find(TableAt(l, start, rs, i).clients, rs[i].key)
  }

  function Answers(l: Limits, start: real, rs: seq<Request>): (answers: seq<Answer>)
    ensures |answers| == |rs|
  {
    seq(|rs|, i requires 0 <= i < |rs| => Reply(l, Found(l, start, rs, i), rs[i].now))
  }

  /** Every request is served as if nothing were ever swept. */
  predicate Alike(l: Limits, start: real, rs: seq<Request>) {
    forall i :: 0 <= i < |rs| ==> SameService(l, Found(l, start, rs, i), Kept(l, rs, i), rs[i].now)
  }

  /** Whoever finds the bucket swept would have found it full. */
  predicate LossesAreFull(l: Limits, start: real, rs: seq<Request>) {
    forall i :: 0 <= i < |rs| && rs[i].key !in TableAt(l, start, rs, i).clients && Kept(l, rs, i).Some? ==>
      Kept(l, rs, i).value.tokens + l.Refill(rs[i].now - Kept(l, rs, i).value.last) >= l.Burst()
  }

  /** What a table holds is what was kept. */
  predicate Part(clients: map<Key, Bucket>, all: map<Key, Bucket>) {
    forall k :: k in clients ==> k in all && clients[k] == all[k]
  }

  lemma SweptPart(t: Table, now: real, all: map<Key, Bucket>)
    requires Part(t.clients, all)
    ensures Part(Swept(t, now).clients, all)
  {
  }

  /** Up to the first request served otherwise, the table is part of what would have been kept. */
  lemma {:induction false} TableIsPart(l: Limits, start: real, rs: seq<Request>)
    requires Alike(l, start, rs)
    ensures Part(After(l, start, rs).clients, Buckets(l, rs))
  {
    hide Taken, Reply;
    if rs != [] {
      var n := |rs| - 1;
      AlikePrefix(l, start, rs);
      TableIsPart(l, start, rs[..n]);
      SweptPart(After(l, start, rs[..n]), rs[n].now, Buckets(l, rs[..n]));
      assert SameService(l, Found(l, start, rs, n), Kept(l, rs, n), rs[n].now);
    }
  }

  lemma AlikePrefix(l: Limits, start: real, rs: seq<Request>)
    requires rs != []
    ensures var n := |rs| - 1;
      && (Alike(l, start, rs) <==>
        Alike(l, start, rs[..n]) && SameService(l, Found(l, start, rs, n), Kept(l, rs, n), rs[n].now))
      && (LossesAreFull(l, start, rs) ==> LossesAreFull(l, start, rs[..n]))
  {
    hide SameService, Buckets, After, Swept;
    var n := |rs| - 1;
    assert forall i :: 0 <= i < n ==> rs[..n][..i] == rs[..i];
    assert forall i :: 0 <= i < n ==> Kept(l, rs[..n], i) == Kept(l, rs, i);
    assert forall i :: 0 <= i < n ==> Found(l, start, rs[..n], i) == Found(l, start, rs, i);
    assert forall i :: 0 <= i < n ==> TableAt(l, start, rs[..n], i) == TableAt(l, start, rs, i);
  }

  /** Sweeping goes unnoticed in exactly the runs where every swept bucket that is asked for would be full again. */
  lemma {:induction false} UnnoticedExactly(l: Limits, start: real, rs: seq<Request>)
    requires l.Valid()
    ensures Alike(l, start, rs) <==> LossesAreFull(l, start, rs)
  {
    hide Taken, Reply, SameService, Buckets, After, Swept;
    if rs != [] {
      var n := |rs| - 1;
      AlikePrefix(l, start, rs);
      UnnoticedExactly(l, start, rs[..n]);
      if Alike(l, start, rs[..n]) {
        TableIsPart(l, start, rs[..n]);
        SweptPart(After(l, start, rs[..n]), rs[n].now, Buckets(l, rs[..n]));
        if Kept(l, rs, n).Some? && Found(l, start, rs, n).None? {
          LostIsFull(l, Kept(l, rs, n).value, rs[n].now);
        } else {
          assert Found(l, start, rs, n) == Kept(l, rs, n);
          Itself(l, Found(l, start, rs, n), rs[n].now);
        }
        LossesStep(l, start, rs);
      }
    }
  }

  lemma Itself(l: Limits, b: Option<Bucket>, now: real)
    ensures SameService(l, b, b, now)
  {
  }

  lemma LossesStep(l: Limits, start: real, rs: seq<Request>)
    requires rs != [] && LossesAreFull(l, start, rs[..|rs| - 1])
    ensures var n := |rs| - 1;
      LossesAreFull(l, start, rs) <==>
        (rs[n].key !in TableAt(l, start, rs, n).clients && Kept(l, rs, n).Some? ==>
          Kept(l, rs, n).value.tokens + l.Refill(rs[n].now - Kept(l, rs, n).value.last) >= l.Burst())
  {
    hide Buckets, After, Swept, Limits.Refill;
    var n := |rs| - 1;
    assert forall i :: 0 <= i < n ==> rs[..n][..i] == rs[..i];
    assert forall i :: 0 <= i < n ==> Kept(l, rs[..n], i) == Kept(l, rs, i);
    assert forall i :: 0 <= i < n ==> TableAt(l, start, rs[..n], i) == TableAt(l, start, rs, i);
  }

  lemma AlikeAnswers(l: Limits, start: real, rs: seq<Request>)
    requires Alike(l, start, rs)
    ensures Answers(l, start, rs) == UnsweptAnswers(l, rs)
  {
    hide Buckets, After, Swept, Kept, Found, Reply, Taken;
    forall i | 0 <= i < |rs| ensures Answers(l, start, rs)[i] == UnsweptAnswers(l, rs)[i] {
      assert SameService(l, Found(l, start, rs, i), Kept(l, rs, i), rs[i].now);
    }
  }

  // ---------------------------------------------------------------------------------
  // How far readings may go back
  // ---------------------------------------------------------------------------------

  /** No reading is more than d behind an earlier one. */
  predicate Skewed(rs: seq<Request>, d: real) {
    forall i, j :: 0 <= i < j < |rs| ==> rs[i].now - rs[j].now <= d
  }

  /** A bucket owes no more than readings have gone back since the largest one. */
  lemma {:induction false} DebtBySkew(l: Limits, rs: seq<Request>, key: Key, h: real)
    requires l.Valid() && key in Buckets(l, rs) && forall i :: 0 <= i < |rs| ==> rs[i].now <= h
    ensures Buckets(l, rs)[key].tokens >= l.Refill(Buckets(l, rs)[key].last - h)
  {
    hide Limits.Refill, Taken, Filled, Admits;
    var n := |rs| - 1;
    var before := Buckets(l, rs[..n]);
    if key in before { DebtBySkew(l, rs[..n], key, h); }
    if rs[n].key == key {
      DebtStep(l, Find(before, key), rs[n].now, h);
      TakenNow(l, Find(before, key), rs[n].now);
    }
  }

  lemma DebtStep(l: Limits, b: Option<Bucket>, now: real, h: real)
    requires l.Valid() && now <= h && (b.Some? ==> b.value.tokens >= l.Refill(b.value.last - h))
    ensures Taken(l, b, now).tokens >= l.Refill(now - h)
  {
    hide Limits.Refill;
    RefillGrows(l, now - h, 0.0);
    if b.Some? {
      RefillSum(l, now - b.value.last, b.value.last - h);
      assert now - b.value.last + (b.value.last - h) == now - h;
    }
  }

  lemma {:induction false} DebtAtMost(l: Limits, rs: seq<Request>, key: Key, d: real)
    requires l.Valid() && 0.0 <= d && Skewed(rs, d) && key in Buckets(l, rs)
    ensures Buckets(l, rs)[key].tokens >= l.Refill(-d) && Buckets(l, rs)[key].lastSeen == Buckets(l, rs)[key].last
  {
    hide Limits.Refill, Taken, Filled;
    var n := |rs| - 1;
    var before := Buckets(l, rs[..n]);
    if rs[n].key == key {
      DebtBySkew(l, rs, key, rs[n].now + d);
      TakenNow(l, Find(before, key), rs[n].now);
      assert rs[n].now - (rs[n].now + d) == -d;
    } else {
      DebtAtMost(l, rs[..n], key, d);
    }
  }

  /** A bucket that is gone was seen idle for ten minutes by some reading. */
  ghost predicate LeftIdle(rs: seq<Request>, b: Bucket) {
    exists i :: 0 <= i < |rs| && rs[i].now - b.lastSeen > IDLE
  }

  lemma IdleLonger(rs: seq<Request>, b: Bucket)
    requires rs != [] && LeftIdle(rs[..|rs| - 1], b)
    ensures LeftIdle(rs, b)
  {
    var i :| 0 <= i < |rs| - 1 && rs[..|rs| - 1][i].now - b.lastSeen > IDLE;
    assert rs[i].now - b.lastSeen > IDLE;
  }

  /** Buckets missing when request n is answered. */
  lemma MissingNow(rs: seq<Request>, t: Table, all: map<Key, Bucket>, key: Key)
    requires rs != [] && Part(t.clients, all) && key in all
    requires key !in t.clients ==> LeftIdle(rs[..|rs| - 1], all[key])
    ensures key !in Swept(t, rs[|rs| - 1].now).clients ==> LeftIdle(rs, all[key])
  {
    var n := |rs| - 1;
    if key !in t.clients {
      IdleLonger(rs, all[key]);
    } else if key !in Swept(t, rs[n].now).clients {
      assert rs[n].now - all[key].lastSeen > IDLE;
    }
  }

  lemma {:induction false} MissingLeftIdle(l: Limits, start: real, rs: seq<Request>, key: Key)
    requires Alike(l, start, rs) && key in Buckets(l, rs)
    ensures key !in After(l, start, rs).clients ==> LeftIdle(rs, Buckets(l, rs)[key])
  {
    hide SameService, Taken, LeftIdle, Swept, IDLE, Part;
    var n := |rs| - 1;
    if rs[n].key != key {
      AlikePrefix(l, start, rs);
      MissingLeftIdle(l, start, rs[..n], key);
      TableIsPart(l, start, rs[..n]);
      MissingNow(rs, After(l, start, rs[..n]), Buckets(l, rs[..n]), key);
    }
  }

  /** Readings that go back at most four and a half minutes do no harm. */
  lemma {:induction false} SmallSkewUnnoticed(l: Limits, start: real, rs: seq<Request>, d: real)
    requires l.Valid() && 0.0 <= d <= 270.0 && Skewed(rs, d)
    ensures Alike(l, start, rs)
  {
    hide SameService, Taken, LeftIdle, Swept, Part, Buckets, After, Limits.Refill, Limits.Burst;
    if rs != [] {
      var n := |rs| - 1;
      SmallSkewUnnoticed(l, start, rs[..n], d);
      AlikePrefix(l, start, rs);
      var t, all := After(l, start, rs[..n]), Buckets(l, rs[..n]);
      TableIsPart(l, start, rs[..n]);
      if rs[n].key in all && rs[n].key !in Swept(t, rs[n].now).clients {
        MissingLeftIdle(l, start, rs[..n], rs[n].key);
        MissingNow(rs, t, all, rs[n].key);
        DebtAtMost(l, rs[..n], rs[n].key, d);
        FullAgain(l, rs, all[rs[n].key], d);
        LostIsFull(l, all[rs[n].key], rs[n].now);
      } else {
        FoundIsKept(t, all, rs[n]);
        Itself(l, Find(all, rs[n].key), rs[n].now);
      }
    }
  }

  lemma FoundIsKept(t: Table, all: map<Key, Bucket>, r: Request)
    requires Part(t.clients, all) && (r.key in all ==> r.key in Swept(t, r.now).clients)
    ensures Find(Swept(t, r.now).clients, r.key) == Find(all, r.key)
  {
    SweptPart(t, r.now, all);
  }

  lemma FullAgain(l: Limits, rs: seq<Request>, b: Bucket, d: real)
    requires l.Valid() && 0.0 <= d <= 270.0 && Skewed(rs, d) && rs != []
    requires LeftIdle(rs, b) && b.tokens >= l.Refill(-d) && b.lastSeen == b.last
    ensures b.tokens + l.Refill(rs[|rs| - 1].now - b.last) >= l.Burst()
  {
    hide Limits.Refill, Limits.Burst;
    var now := rs[|rs| - 1].now;
    var i :| 0 <= i < |rs| && rs[i].now - b.lastSeen > IDLE;
    assert now - b.last >= IDLE - d;
    RefillSum(l, -d, now - b.last);
    RefillGrows(l, 60.0, -d + (now - b.last));
    MinuteFills(l);
  }

  // ---------------------------------------------------------------------------------
  // Four and a half minutes is the exact limit
  // ---------------------------------------------------------------------------------

  /** k more requests of one client with one reading. */
  function Repeat(key: Key, now: real, k: nat): seq<Request> {
    seq(k, i => Request(key, now))
  }

  lemma AdmissionsGrow(rs: seq<Request>, answers: seq<Answer>, r: Request, a: Answer, key: Key, s: real, t: real)
    requires |rs| == |answers|
    ensures Admissions(rs + [r], answers + [a], key, s, t)
      == Admissions(rs, answers, key, s, t) + if r.key == key && s <= r.now <= t && a.ok then 1 else 0
  {
    assert (rs + [r])[..|rs|] == rs && (answers + [a])[..|rs|] == answers;
  }

  /** One more request. */
  lemma OneMore(l: Limits, start: real, rs: seq<Request>, r: Request)
    ensures After(l, start, rs + [r]) == Serving(l, After(l, start, rs), r)
    ensures Answers(l, start, rs + [r])
      == Answers(l, start, rs) + [Reply(l, Find(Swept(After(l, start, rs), r.now).clients, r.key), r.now)]
  {
    hide Swept, Reply, Taken;
    var all := rs + [r];
    assert all[..|rs|] == rs;
    assert forall i :: 0 <= i < |rs| ==> all[..i] == rs[..i];
  }

  /** A client that finds its bucket full, or none, is admitted a full burst of times at once. */
  lemma {:induction false} Drain(l: Limits, start: real, rs: seq<Request>, key: Key, now: real, k: nat, s: real, t: real)
    requires l.Valid() && 1 <= k <= l.perMinute && s <= now <= t
    requires Filled(l, Find(Swept(After(l, start, rs), now).clients, key), now) >= l.Burst()
    ensures var all := rs + Repeat(key, now, k);
      && After(l, start, all).clients == Swept(After(l, start, rs), now).clients[key := Bucket(l.Burst() - k as real, now, now)]
      && After(l, start, all).lastSweep == Swept(After(l, start, rs), now).lastSweep
      && Admissions(all, Answers(l, start, all), key, s, t) == Admissions(rs, Answers(l, start, rs), key, s, t) + k
  {
    hide After, Answers, Admissions;
    var was, r := rs + Repeat(key, now, k - 1), Request(key, now);
    assert rs + Repeat(key, now, k) == was + [r];
    OneMore(l, start, was, r);
    AdmissionsGrow(was, Answers(l, start, was), r, Reply(l, Find(Swept(After(l, start, was), r.now).clients, r.key), r.now), key, s, t);
    if k == 1 {
      assert was == rs;
    } else {
      Drain(l, start, rs, key, now, k - 1, s, t);
      AgainNow(l, After(l, start, rs), After(l, start, was), key, now, l.Burst() - (k - 1) as real);
    }
  }

  /** A second request with the same reading sweeps nothing and gains nothing. */
  lemma AgainNow(l: Limits, t: Table, u: Table, key: Key, now: real, tokens: real)
    requires u.lastSweep == Swept(t, now).lastSweep && u.clients == Swept(t, now).clients[key := Bucket(tokens, now, now)]
    requires tokens <= l.Burst()
    ensures Swept(u, now) == u && Filled(l, Find(u.clients, key), now) == tokens
  {
    hide Limits.Refill;
    NoTimeNoRefill(l);
    assert now - now == 0.0;
  }

  lemma NoTimeNoRefill(l: Limits)
    ensures l.Refill(0.0) == 0.0
  {
  }

  /** No reading is older than the limiter, whose maker read the same monotonic clock. */
  predicate FromStart(start: real, rs: seq<Request>) {
    forall i :: 0 <= i < |rs| ==> start <= rs[i].now
  }

  /** A client uses its burst, runs into debt with a reading that goes x back, is swept by a late reading of another client,
      and returns x earlier to find a new bucket, less than a minute after its first burst. The limiter was made at -x. */
  function DebtForgotten(l: Limits, x: real): seq<Request>
    requires l.Valid()
  {
    Repeat("a", 0.0, l.perMinute) + [Request("a", -x)] + [Request("b", 330.0)] + Repeat("a", 330.0 - x, l.perMinute)
  }

  lemma DebtForgottenSkew(l: Limits, x: real)
    requires l.Valid() && 270.0 < x <= 271.0
    ensures Skewed(DebtForgotten(l, x), x) && FromStart(-x, DebtForgotten(l, x))
  {
    var rs, p := DebtForgotten(l, x), l.perMinute;
    assert forall i :: 0 <= i < |rs| ==>
      rs[i].now == if i < p then 0.0 else if i == p then -x else if i == p + 1 then 330.0 else 330.0 - x;
  }

  lemma DebtForgottenBreaks(l: Limits, x: real)
    requires l.Valid() && 270.0 < x <= 271.0
    ensures var rs := DebtForgotten(l, x);
      Admissions(rs, Answers(l, -x, rs), "a", 0.0, 330.0 - x) == 2 * l.perMinute
    ensures (2 * l.perMinute) as real > Allowance(l.perMinute, 330.0 - x)
  {
    hide After, Answers, Admissions;
    var p, t := l.perMinute, 330.0 - x;
    assert l.Burst() == p as real;
    var r1 := Repeat("a", 0.0, p);
    StartsEmpty(l, -x, "a", 0.0, t);
    Drain(l, -x, [], "a", 0.0, p, 0.0, t);
    assert [] + r1 == r1;
    var r2 := r1 + [Request("a", -x)];
    Owing(l, x);
    OneMore(l, -x, r1, Request("a", -x));
    AdmissionsGrow(r1, Answers(l, -x, r1), Request("a", -x), Answer(0, false), "a", 0.0, t);
    var r3 := r2 + [Request("b", 330.0)];
    OneMore(l, -x, r2, Request("b", 330.0));
    AdmissionsGrow(r2, Answers(l, -x, r2), Request("b", 330.0), Answers(l, -x, r3)[|r2|], "a", 0.0, t);
    Drain(l, -x, r3, "a", t, p, 0.0, t);
    MinuteFills(l);
    LessThanAMinute(l, t);
    AllowanceIs(l, t);
  }

  lemma StartsEmpty(l: Limits, start: real, key: Key, s: real, t: real)
    ensures After(l, start, []) == Table(map[], start) && Admissions([], Answers(l, start, []), key, s, t) == 0
  {
  }

  lemma LessThanAMinute(l: Limits, dt: real)
    requires l.Valid() && dt < 60.0
    ensures l.Refill(dt) < l.Refill(60.0)
  {
    assert (60.0 - dt) * l.Rate() > 0.0;
  }

  /** An empty bucket and a reading x earlier: no admission, and a debt. */
  lemma Owing(l: Limits, x: real)
    requires l.Valid() && x > 0.0
    ensures var b := Some(Bucket(0.0, 0.0, 0.0));
      Reply(l, b, -x) == Answer(0, false) && Taken(l, b, -x).lastSeen == -x
  {
    RefillGrows(l, -x, 0.0);
  }

  /** Under any limit, all runs of a limiter whose readings are none older than itself and none more than d behind another keep
      the admission bound if and only if d is at most 270 s. */
  lemma SkewExactly(l: Limits, d: real)
    requires l.Valid() && 0.0 <= d
    ensures (forall start, rs :: Skewed(rs, d) && FromStart(start, rs) ==> Bounded(l, rs, Answers(l, start, rs))) <==> d <= 270.0
  {
    hide Answers, Admissions, Skewed, FromStart, Alike, Limits.Refill;
    if d <= 270.0 {
      forall start, rs | Skewed(rs, d) ensures Bounded(l, rs, Answers(l, start, rs)) {
        SmallSkewUnnoticed(l, start, rs, d);
        AlikeBounded(l, start, rs);
      }
    } else {
      var x := Least(d, 271.0);
      var rs := DebtForgotten(l, x);
      DebtForgottenSkew(l, x);
      SkewGrows(rs, x, d);
      DebtForgottenBreaks(l, x);
      assert !Bounded(l, rs, Answers(l, -x, rs));
    }
  }

  lemma SkewGrows(rs: seq<Request>, d: real, d': real)
    requires Skewed(rs, d) && d <= d'
    ensures Skewed(rs, d')
  {
  }

  /** Unnoticed sweeping keeps the bound. */
  lemma AlikeBounded(l: Limits, start: real, rs: seq<Request>)
    requires l.Valid() && Alike(l, start, rs)
    ensures Bounded(l, rs, Answers(l, start, rs))
  {
    hide Answers, UnsweptAnswers, Admissions, Alike, Limits.Refill;
    AlikeAnswers(l, start, rs);
    forall key, s, t | s <= t
      ensures Admissions(rs, Answers(l, start, rs), key, s, t) as real <= Allowance(l.perMinute, t - s)
    {
      AdmissionBound(l, rs, key, s, t);
    }
  }

  // ---------------------------------------------------------------------------------
  // The code
  // ---------------------------------------------------------------------------------

  class RateLimiter {
    const limits: Limits
    ghost const start: real
    var clients: map<Key, Bucket>
    var lastSweep: real
    ghost var served: seq<Request>

    ghost predicate Valid()
      reads this
    {
      limits.Valid() && Table(clients, lastSweep) == After(limits, start, served)
    }

    constructor (limits: Limits, now: real)
      requires limits.Valid()
      ensures Valid() && served == [] && this.limits == limits && start == now
    {
      this.limits, start := limits, now;
      clients, lastSweep, served := map[], now, [];
    }

    /** Whatever the order of readings, the request is answered from its bucket in the swept table. */
    method AllowWithRemaining(key: Key, now: real) returns (remaining: int, ok: bool)
      requires Valid()
      modifies this
      ensures Valid() && served == old(served) + [Request(key, now)]
      ensures Answers(limits, start, served) == Answers(limits, start, old(served)) + [Answer(remaining, ok)]
      ensures LossesAreFull(limits, start, served) ==> Answer(remaining, ok) == UnsweptAnswers(limits, served)[|served| - 1]
    {
      hide Swept, After, Taken, Reply, LossesAreFull, Alike, Answers, UnsweptAnswers;
      ghost var t := Table(clients, lastSweep);
      if now - lastSweep > SWEEP_EVERY {
        SweepLocked(now);
        lastSweep := now;
      }
      assert Table(clients, lastSweep) == Swept(t, now) by { SweptIs(t, now); }
      OneMore(limits, start, served, Request(key, now));
      served := served + [Request(key, now)];
      remaining, ok := Take(key, now);
      if LossesAreFull(limits, start, served) {
        UnnoticedExactly(limits, start, served);
        AlikeAnswers(limits, start, served);
      }
    }

    method SweepLocked(now: real)
      modifies this`clients
      ensures clients == map k | k in old(clients) && !(now - old(clients)[k].lastSeen > IDLE) :: old(clients)[k]
    {
      var keys := clients.Keys;
      while keys != {}
        invariant keys <= old(clients).Keys && clients.Keys <= old(clients).Keys
        invariant forall k :: k in clients ==> clients[k] == old(clients)[k]
        invariant forall k :: k in old(clients) ==>
          (k in clients <==> k in keys || !(now - old(clients)[k].lastSeen > IDLE))
        decreases |keys|
      {
        var k :| k in keys;
        keys := keys - {k};
        if now - clients[k].lastSeen > IDLE { clients := clients - {k}; }
      }
    }

    /** One token from the client's bucket. */
    method Take(key: Key, now: real) returns (remaining: int, ok: bool)
      requires limits.Valid()
      modifies this`clients
      ensures Answer(remaining, ok) == Reply(limits, Find(old(clients), key), now)
      ensures clients == old(clients)[key := Taken(limits, Find(old(clients), key), now)]
    {
      var rate, burst := limits.Rate(), limits.Burst();
      if key !in clients {
        var tokens := burst - 1.0;
        clients := clients[key := Bucket(tokens, now, now)];
        if tokens < 0.0 { tokens := 0.0; }
        return Trunc(tokens), true;
      }
      var b := clients[key];
      var elapsed := now - b.last;
      var tokens := b.tokens + elapsed * rate;
      assert elapsed * rate == limits.Refill(now - b.last);
      if tokens > burst { tokens := burst; }
      assert tokens == Filled(limits, Some(b), now);
      if tokens < 1.0 {
        clients := clients[key := Bucket(tokens, now, now)];
        return 0, false;
      }
      tokens := tokens - 1.0;
      clients := clients[key := Bucket(tokens, now, now)];
      var whole := Trunc(tokens);
      return if whole > 0 then whole else 0, true;
    }
  }

  lemma SweptIs(t: Table, now: real)
    ensures Swept(t, now).lastSweep == if now - t.lastSweep > 300.0 then now else t.lastSweep
    ensures Swept(t, now).clients ==
      if now - t.lastSweep > 300.0 then map k | k in t.clients && !(now - t.clients[k].lastSeen > 600.0) :: t.clients[k]
      else t.clients
  {
  }

  /** Below one request a minute there is no limiter at all. */
  method NewRateLimiter(perMinute: int, now: real) returns (rl: RateLimiter?)
    ensures rl == null <==> perMinute < 1
    ensures rl != null ==> fresh(rl) && rl.Valid() && rl.served == [] && rl.limits == Limits(perMinute) && rl.start == now
  {
    if perMinute < 1 { return null; }
    rl := new RateLimiter(Limits(perMinute), now);
  }

  /** A run of requests. Without a limiter everything passes. With one the answers are those of a limiter that never sweeps
      whenever no bucket was missed, and then, or with readings at most 270 s behind, no client gets more than its burst
      plus the rate in any interval. */
  method Serve(rl: RateLimiter?, rs: seq<Request>) returns (answers: seq<Answer>)
    requires rl != null ==> rl.Valid() && rl.served == []
    modifies rl
    ensures |answers| == |rs|
    ensures rl == null ==> forall i :: 0 <= i < |rs| ==> answers[i] == Answer(0, true)
    ensures rl != null ==> rl.Valid() && rl.served == rs && answers == Answers(rl.limits, rl.start, rs)
    ensures rl != null && (LossesAreFull(rl.limits, rl.start, rs) || Skewed(rs, 270.0)) ==>
      answers == UnsweptAnswers(rl.limits, rs) && Bounded(rl.limits, rs, answers)
  {
    hide After, LossesAreFull, Answers, UnsweptAnswers, Admissions, Bounded, Skewed, Alike;
    answers := [];
    if rl != null { NoAnswers(rl.limits, rl.start); }
    for i := 0 to |rs|
      invariant |answers| == i
      invariant rl == null ==> forall k :: 0 <= k < i ==> answers[k] == Answer(0, true)
      invariant rl != null ==> rl.Valid() && rl.served == rs[..i] && answers == Answers(rl.limits, rl.start, rs[..i])
    {
      var a := Answer(0, true);
      if rl != null {
        var remaining, ok := rl.AllowWithRemaining(rs[i].key, rs[i].now);
        a := Answer(remaining, ok);
        assert rs[..i + 1] == rs[..i] + [rs[i]];
      }
      answers := answers + [a];
    }
    assert rs[..|rs|] == rs;
    if rl != null && (LossesAreFull(rl.limits, rl.start, rs) || Skewed(rs, 270.0)) {
      if Skewed(rs, 270.0) { SmallSkewUnnoticed(rl.limits, rl.start, rs, 270.0); }
      UnnoticedExactly(rl.limits, rl.start, rs);
      AlikeAnswers(rl.limits, rl.start, rs);
      AlikeBounded(rl.limits, rl.start, rs);
    }
  }

  lemma NoAnswers(l: Limits, start: real)
    ensures Answers(l, start, []) == []
  {
  }

  /** The limiter itself, made at -271, at such a run: one request a minute, and two pass within 59 seconds. */
  method LateThenEarly() returns (answers: seq<Answer>)
    ensures |answers| == |DebtForgotten(Limits(1), 271.0)| == 4 && FromStart(-271.0, DebtForgotten(Limits(1), 271.0))
    ensures answers[0].ok && answers[3].ok && !UnsweptAnswers(Limits(1), DebtForgotten(Limits(1), 271.0))[3].ok
    ensures !Bounded(Limits(1), DebtForgotten(Limits(1), 271.0), answers)
  {
    hide *;
    var rl := NewRateLimiter(1, -271.0);
    NoAnswers(rl.limits, rl.start);
    var x0, ok0 := rl.AllowWithRemaining("a", 0.0);
    var x1, ok1 := rl.AllowWithRemaining("a", -271.0);
    var x2, ok2 := rl.AllowWithRemaining("b", 330.0);
    var x3, ok3 := rl.AllowWithRemaining("a", 59.0);
    answers := [Answer(x0, ok0), Answer(x1, ok1), Answer(x2, ok2), Answer(x3, ok3)];
    Witness(rl.served, answers);
  }

  lemma Witness(rs: seq<Request>, answers: seq<Answer>)
    requires rs == [Request("a", 0.0), Request("a", -271.0), Request("b", 330.0), Request("a", 59.0)]
    requires answers == Answers(Limits(1), -271.0, rs)
    ensures rs == DebtForgotten(Limits(1), 271.0) && FromStart(-271.0, rs) && |answers| == 4
    ensures answers[0].ok && answers[3].ok && !UnsweptAnswers(Limits(1), rs)[3].ok && !Bounded(Limits(1), rs, answers)
  {
    hide After, Answers, UnsweptAnswers, Admissions;
    assert rs == DebtForgotten(Limits(1), 271.0);
    DebtForgottenBreaks(Limits(1), 271.0);
    assert 330.0 - 271.0 == 59.0;
    BothAdmitted(rs, answers);
    DebtKept(rs);
  }

  lemma BothAdmitted(rs: seq<Request>, answers: seq<Answer>)
    requires rs == [Request("a", 0.0), Request("a", -271.0), Request("b", 330.0), Request("a", 59.0)] && |answers| == 4
    requires Admissions(rs, answers, "a", 0.0, 59.0) == 2
    ensures answers[0].ok && answers[3].ok
  {
    AdmissionsGrow(rs[..3], answers[..3], rs[3], answers[3], "a", 0.0, 59.0);
    AdmissionsGrow(rs[..2], answers[..2], rs[2], answers[2], "a", 0.0, 59.0);
    AdmissionsGrow(rs[..1], answers[..1], rs[1], answers[1], "a", 0.0, 59.0);
    AdmissionsGrow([], [], rs[0], answers[0], "a", 0.0, 59.0);
    assert rs == rs[..3] + [rs[3]] && rs[..3] == rs[..2] + [rs[2]] && rs[..2] == rs[..1] + [rs[1]] && rs[..1] == [] + [rs[0]];
    assert answers == answers[..3] + [answers[3]] && answers[..3] == answers[..2] + [answers[2]];
    assert answers[..2] == answers[..1] + [answers[1]] && answers[..1] == [] + [answers[0]];
  }

  /** Without the sweep the last of them is turned away. */
  lemma DebtKept(rs: seq<Request>)
    requires rs == [Request("a", 0.0), Request("a", -271.0), Request("b", 330.0), Request("a", 59.0)]
    ensures !UnsweptAnswers(Limits(1), rs)[3].ok
  {
    var l := Limits(1);
    assert rs[..3][..2] == rs[..2] && rs[..2][..1] == rs[..1] && rs[..1][..0] == [];
    assert Buckets(l, rs[..1])["a"] == Bucket(0.0, 0.0, 0.0);
    assert Buckets(l, rs[..2])["a"] == Bucket(-271.0 / 60.0, -271.0, -271.0);
    assert Buckets(l, rs[..3])["a"] == Buckets(l, rs[..2])["a"];
  }
}
