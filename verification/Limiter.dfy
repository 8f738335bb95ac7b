/** The keyed limiter as a value: one bucket per key, an idle sweep, and a cap that
    evicts the oldest insertion. Beside it a limiter that never forgets a key, and
    when the two answer alike. Calls come one at a time. */
module Limiter {
  import opened TokenBucket
  import opened Chains

  /** Keys are only ever compared. */
  type Key(==, !new)

  const DEFAULT_MAX_BUCKETS := 0x1_0000
  const MINUTE := 60_000_000_000
  const DAY := 24 * 60 * MINUTE
  const DEFAULT_IDLE_TTL := 10 * MINUTE
  const SWEEP_EVERY := 256 // insertions between idle sweeps

  /** maxBuckets 0: no cap. ttl 0: no idle sweep. */
  datatype Settings = Settings(policy: Policy, maxBuckets: nat, ttl: nat)

  function ResolveMaxBuckets(cfg: int): (r: nat)
    ensures r == 0 <==> cfg < 0
    ensures cfg > 0 ==> r == cfg
    ensures cfg == 0 ==> r == DEFAULT_MAX_BUCKETS
  {
    if cfg == 0 then DEFAULT_MAX_BUCKETS else if cfg < 0 then 0 else cfg
  }

  /** Nanoseconds from empty to full. */
  function RefillTime(p: Policy): real
    requires p.Valid()
  {
    p.burst as real / p.rate * SECOND
  }

  /** Refill times that truncate to nothing, or reach a day, count as a day. */
  function ClampedRefill(p: Policy): (r: nat)
    requires p.Valid()
    ensures 0 < r <= DAY
    ensures 1.0 <= RefillTime(p) < DAY as real ==> r as real <= RefillTime(p) < r as real + 1.0
    ensures RefillTime(p) < 1.0 || RefillTime(p) >= DAY as real ==> r == DAY
  {
    var d := RefillTime(p).Floor;
    if 0 < d < DAY then d else DAY
  }

  /** The larger of the clamped refill time and the configured or default floor. */
  function ResolveIdleTTL(cfg: int, p: Policy): (r: nat)
    requires p.Valid()
    ensures r == 0 <==> cfg < 0
    ensures cfg > 0 ==> r >= cfg && r >= ClampedRefill(p) && (r == cfg || r == ClampedRefill(p))
    ensures cfg == 0 ==> r >= DEFAULT_IDLE_TTL && r >= ClampedRefill(p) && (r == DEFAULT_IDLE_TTL || r == ClampedRefill(p))
  {
    if cfg < 0 then 0
    else
      var floor := if cfg > 0 then cfg else DEFAULT_IDLE_TTL;
      if ClampedRefill(p) > floor then ClampedRefill(p) else floor
  }

  /** order: the keys, most recently inserted first. */
  datatype Lim = Lim(order: seq<Key>, table: map<Key, Bucket>, insertCt: nat)

  const EMPTY := Lim([], map[], 0)

  function Filter(q: seq<Key>, keys: set<Key>): seq<Key> {
    if q == [] then []
    else if q[0] in keys then [q[0]] + Filter(q[1..], keys)
    else Filter(q[1..], keys)
  }

  /** The limiter with only these keys left. */
  function Keep(l: Lim, keys: set<Key>): Lim {
    l.(order := Filter(l.order, keys), table := map k | k in l.table && k in keys :: l.table[k])
  }

  function Fresh(l: Lim, cutoff: Time): set<Key> { set k | k in l.table && l.table[k].lastSeen >= cutoff }

  function Sweep(l: Lim, cutoff: Time): Lim { Keep(l, Fresh(l, cutoff)) }

  function Newest(q: seq<Key>, n: nat): set<Key> {
    var top := if n < |q| then q[..n] else q;
    set k | k in top
  }

  /** The clock readings of one call, in the order the call makes them. */
  datatype Call = Call(key: Key, sweep: Time, cap: Time, create: Time, use: Time)

  predicate AtCap(s: Settings, l: Lim) { s.maxBuckets > 0 && |l.table| >= s.maxBuckets }

  function SweptByCount(s: Settings, l: Lim, c: Call): Lim {
    var n := l.(insertCt := l.insertCt + 1);
    if s.ttl > 0 && n.insertCt % SWEEP_EVERY == 0 then Sweep(n, c.sweep - s.ttl) else n
  }

  function SweptByCap(s: Settings, l: Lim, c: Call): Lim {
    var n := SweptByCount(s, l, c);
    if AtCap(s, n) && s.ttl > 0 then Sweep(n, c.cap - s.ttl) else n
  }

  /** The call has to evict a bucket that is not idle. */
  predicate Forced(s: Settings, l: Lim, c: Call) { c.key !in l.table && AtCap(s, SweptByCap(s, l, c)) }

  /** Eviction from the old end until there is room for one more. */
  function Cut(s: Settings, l: Lim): Lim {
    if AtCap(s, l) then Keep(l, Newest(l.order, s.maxBuckets - 1)) else l
  }

  function RoomMade(s: Settings, l: Lim, c: Call): Lim {
    Cut(s, SweptByCap(s, l, c))
  }

  /** The bucket a call finds or creates. */
  function BucketFor(s: Settings, table: map<Key, Bucket>, c: Call): Bucket {
    if c.key in table then table[c.key] else NewBucket(s.policy, c.create)
  }

  function Inserted(l: Lim, k: Key, b: Bucket): Lim { l.(order := [k] + l.order, table := l.table[k := b]) }

  function Allow(s: Settings, l: Lim, c: Call): Lim {
    var b := Allowed(s.policy, BucketFor(s, l.table, c), c.use);
    if c.key in l.table then l.(table := l.table[c.key := b]) else Inserted(RoomMade(s, l, c), c.key, b)
  }

  predicate Answer(s: Settings, table: map<Key, Bucket>, c: Call) {
    Admits(s.policy, BucketFor(s, table, c), c.use)
  }

  function Run(s: Settings, calls: seq<Call>): Lim {
    if calls == [] then EMPTY else Allow(s, Run(s, calls[..|calls| - 1]), calls[|calls| - 1])
  }

  function Answers(s: Settings, calls: seq<Call>): seq<bool> {
    if calls == [] then []
    else
      var init, c := calls[..|calls| - 1], calls[|calls| - 1];
      Answers(s, init) + [Answer(s, Run(s, init).table, c)]
  }

  // ---------------------------------------------------------------- the limiter that never forgets

  function Remember(s: Settings, calls: seq<Call>): map<Key, Bucket> {
    if calls == [] then map[]
    else
      var m, c := Remember(s, calls[..|calls| - 1]), calls[|calls| - 1];
      m[c.key := Allowed(s.policy, BucketFor(s, m, c), c.use)]
  }

  function RememberedAnswers(s: Settings, calls: seq<Call>): seq<bool> {
    if calls == [] then []
    else
      var init, c := calls[..|calls| - 1], calls[|calls| - 1];
      RememberedAnswers(s, init) + [Answer(s, Remember(s, init), c)]
  }

  // ---------------------------------------------------------------- the list and the map

  ghost function Members(q: seq<Key>): set<Key> { set k | k in q }

  lemma MembersCons(q: seq<Key>)
    requires q != []
    ensures Members(q) == {q[0]} + Members(q[1..])
  {
    assert q == [q[0]] + q[1..];
  }

  lemma {:induction false} FilterKeeps(q: seq<Key>, keys: set<Key>)
    requires AllDifferent(q)
    ensures AllDifferent(Filter(q, keys)) && Members(Filter(q, keys)) == Members(q) * keys && |Filter(q, keys)| <= |q|
  {
    if q != [] {
      var rest := Filter(q[1..], keys);
      FilterKeeps(q[1..], keys);
      MembersCons(q);
      assert q[0] !in Members(q[1..]);
      assert q[0] !in Members(rest);
      if q[0] in keys {
        assert ([q[0]] + rest)[1..] == rest;
        MembersCons([q[0]] + rest);
      }
    }
  }

  /** The list holds exactly the keys of the map, each once. */
  ghost predicate Listed(l: Lim) { AllDifferent(l.order) && Members(l.order) == l.table.Keys }

  lemma {:induction false} MembersCount(q: seq<Key>)
    requires AllDifferent(q)
    ensures |Members(q)| == |q|
  {
    if q != [] {
      MembersCount(q[1..]);
      MembersCons(q);
      assert q[0] !in Members(q[1..]);
    }
  }

  lemma ListedCount(l: Lim)
    requires Listed(l)
    ensures |l.order| == |l.table|
  {
    MembersCount(l.order);
    assert |l.table| == |l.table.Keys|;
  }

  lemma KeepListed(l: Lim, keys: set<Key>)
    requires Listed(l)
    ensures Listed(Keep(l, keys))
  {
    FilterKeeps(l.order, keys);
    assert Keep(l, keys).table.Keys == l.table.Keys * keys;
  }

  lemma {:induction false} FilterSame(q: seq<Key>, keys: set<Key>, others: set<Key>)
    requires Members(q) * keys == Members(q) * others
    ensures Filter(q, keys) == Filter(q, others)
  {
    if q != [] {
      MembersCons(q);
      assert q[0] in Members(q) && (q[0] in Members(q) * keys <==> q[0] in Members(q) * others);
      forall k | k in Members(q[1..])
        ensures k in keys <==> k in others
      {
        assert k in Members(q) * keys <==> k in Members(q) * others;
      }
      assert Members(q[1..]) * keys == Members(q[1..]) * others;
      FilterSame(q[1..], keys, others);
    }
  }

  lemma {:induction false} FilterNewest(q: seq<Key>, n: nat)
    requires AllDifferent(q) && n <= |q|
    ensures Filter(q, Newest(q, n)) == q[..n]
  {
    assert Newest(q, n) == Members(q[..n]);
    if q == [] {
    } else if n == 0 {
      assert Members(q[1..]) * Newest(q, 0) == Members(q[1..]) * Newest(q[1..], 0);
      FilterSame(q[1..], Newest(q, 0), Newest(q[1..], 0));
      FilterNewest(q[1..], 0);
    } else {
      var rest := q[1..];
      assert q[..n][0] == q[0] && q[..n][1..] == rest[..n - 1];
      MembersCons(q[..n]);
      assert Newest(rest, n - 1) == Members(rest[..n - 1]);
      assert q[0] !in Members(rest);
      assert Members(rest) * Newest(q, n) == Members(rest) * Newest(rest, n - 1);
      FilterSame(rest, Newest(q, n), Newest(rest, n - 1));
      FilterNewest(rest, n - 1);
      assert q[..n] == [q[0]] + rest[..n - 1];
    }
  }

  lemma SweptListed(s: Settings, l: Lim, c: Call)
    requires Listed(l)
    ensures Listed(SweptByCount(s, l, c)) && Listed(SweptByCap(s, l, c))
  {
    var counted := l.(insertCt := l.insertCt + 1);
    KeepListed(counted, Fresh(counted, c.sweep - s.ttl));
    var a := SweptByCount(s, l, c);
    KeepListed(a, Fresh(a, c.cap - s.ttl));
  }

  /** Keeping the newest n keys keeps n. */
  lemma NewestListed(l: Lim, n: nat)
    requires Listed(l) && n <= |l.order|
    ensures Listed(Keep(l, Newest(l.order, n))) && |Keep(l, Newest(l.order, n)).table| == n
  {
    KeepListed(l, Newest(l.order, n));
    FilterNewest(l.order, n);
    ListedCount(Keep(l, Newest(l.order, n)));
  }

  lemma CutListed(s: Settings, l: Lim)
    requires Listed(l)
    ensures Listed(Cut(s, l)) && (s.maxBuckets > 0 ==> |Cut(s, l).table| < s.maxBuckets)
  {
    if AtCap(s, l) {
      ListedCount(l);
      NewestListed(l, s.maxBuckets - 1);
    }
  }

  lemma RoomListed(s: Settings, l: Lim, c: Call)
    requires Listed(l)
    ensures Listed(RoomMade(s, l, c))
    ensures s.maxBuckets > 0 ==> |RoomMade(s, l, c).table| < s.maxBuckets
  {
    SweptListed(s, l, c);
    CutListed(s, SweptByCap(s, l, c));
  }

  lemma InsertedListed(l: Lim, k: Key, b: Bucket)
    requires Listed(l) && k !in l.table
    ensures Listed(Inserted(l, k, b)) && |Inserted(l, k, b).table| == |l.table| + 1
  {
    var r := Inserted(l, k, b);
    assert k !in Members(l.order);
    assert r.order[1..] == l.order;
    MembersCons(r.order);
    assert r.table.Keys == l.table.Keys + {k};
    ListedCount(l);
    ListedCount(r);
  }

  lemma AllowListed(s: Settings, l: Lim, c: Call)
    requires Listed(l) && (s.maxBuckets > 0 ==> |l.table| <= s.maxBuckets)
    ensures Listed(Allow(s, l, c)) && (s.maxBuckets > 0 ==> |Allow(s, l, c).table| <= s.maxBuckets)
  {
    var b := Allowed(s.policy, BucketFor(s, l.table, c), c.use);
    if c.key in l.table {
      var r := l.(table := l.table[c.key := b]);
      assert r.table.Keys == l.table.Keys;
      ListedCount(l);
      ListedCount(r);
    } else {
      RoomListed(s, l, c);
      RoomIsOld(s, l, c);
      InsertedListed(RoomMade(s, l, c), c.key, b);
    }
  }

  lemma RoomIsOld(s: Settings, l: Lim, c: Call)
    ensures RoomMade(s, l, c).table.Keys <= l.table.Keys
  {
    assert SweptByCount(s, l, c).table.Keys <= l.table.Keys;
    assert SweptByCap(s, l, c).table.Keys <= l.table.Keys;
  }

  /** After every run of calls, whatever the clock, the list holds exactly the map's
      keys and the map is within the cap. */
  lemma {:induction false} BoundedAndListed(s: Settings, calls: seq<Call>)
    ensures Listed(Run(s, calls))
    ensures s.maxBuckets > 0 ==> |Run(s, calls).table| <= s.maxBuckets
  {
    if calls != [] {
      BoundedAndListed(s, calls[..|calls| - 1]);
      AllowListed(s, Run(s, calls[..|calls| - 1]), calls[|calls| - 1]);
    }
  }

  // ---------------------------------------------------------------- insertion order

  /** The number of the last call that inserted the key; 0 if none did. */
  function InsertedBy(s: Settings, calls: seq<Call>, k: Key): nat {
    if calls == [] then 0
    else
      var init, c := calls[..|calls| - 1], calls[|calls| - 1];
      if c.key == k && k !in Run(s, init).table then |calls| else InsertedBy(s, init, k)
  }

  /** Each key was inserted after all that follow it. */
  ghost predicate Descending(s: Settings, calls: seq<Call>, q: seq<Key>) {
    q == [] ||
    ((forall k | k in Members(q[1..]) :: InsertedBy(s, calls, q[0]) > InsertedBy(s, calls, k)) && Descending(s, calls, q[1..]))
  }

  lemma {:induction false} InsertedBefore(s: Settings, calls: seq<Call>, k: Key)
    ensures InsertedBy(s, calls, k) <= |calls|
  {
    if calls != [] {
      InsertedBefore(s, calls[..|calls| - 1], k);
    }
  }

  lemma {:induction false} FilterDescending(s: Settings, calls: seq<Call>, q: seq<Key>, keys: set<Key>)
    requires Descending(s, calls, q)
    ensures Descending(s, calls, Filter(q, keys)) && Members(Filter(q, keys)) <= Members(q)
  {
    if q != [] {
      var rest := Filter(q[1..], keys);
      FilterDescending(s, calls, q[1..], keys);
      MembersCons(q);
      if q[0] in keys {
        assert ([q[0]] + rest)[1..] == rest;
        MembersCons([q[0]] + rest);
      }
    }
  }

  lemma RoomDescending(s: Settings, calls: seq<Call>, l: Lim, c: Call)
    requires Descending(s, calls, l.order)
    ensures Descending(s, calls, RoomMade(s, l, c).order)
  {
    var n := l.(insertCt := l.insertCt + 1);
    FilterDescending(s, calls, n.order, Fresh(n, c.sweep - s.ttl));
    var a := SweptByCount(s, l, c);
    FilterDescending(s, calls, a.order, Fresh(a, c.cap - s.ttl));
    var b := SweptByCap(s, l, c);
    if AtCap(s, b) {
      FilterDescending(s, calls, b.order, Newest(b.order, s.maxBuckets - 1));
    }
  }

  lemma InsertedSnoc(s: Settings, init: seq<Call>, c: Call, k: Key)
    ensures InsertedBy(s, init + [c], k)
            == if c.key == k && k !in Run(s, init).table then |init| + 1 else InsertedBy(s, init, k)
    ensures InsertedBy(s, init, k) <= |init|
  {
    assert (init + [c])[..|init|] == init;
    InsertedBefore(s, init, k);
  }

  lemma {:induction false} HitDescending(s: Settings, init: seq<Call>, c: Call, q: seq<Key>)
    requires Descending(s, init, q) && (c.key in Run(s, init).table || c.key !in Members(q))
    ensures Descending(s, init + [c], q)
  {
    if q != [] {
      MembersCons(q);
      HitDescending(s, init, c, q[1..]);
      InsertedSnoc(s, init, c, q[0]);
      forall k | k in Members(q[1..])
        ensures InsertedBy(s, init + [c], q[0]) > InsertedBy(s, init + [c], k)
      {
        InsertedSnoc(s, init, c, k);
      }
    }
  }

  lemma PushDescending(s: Settings, init: seq<Call>, c: Call, q: seq<Key>)
    requires Descending(s, init, q) && c.key !in Run(s, init).table && c.key !in Members(q)
    ensures Descending(s, init + [c], [c.key] + q)
  {
    HitDescending(s, init, c, q);
    assert ([c.key] + q)[1..] == q;
    InsertedSnoc(s, init, c, c.key);
    forall k | k in Members(q)
      ensures InsertedBy(s, init + [c], c.key) > InsertedBy(s, init + [c], k)
    {
      InsertedSnoc(s, init, c, k);
    }
  }

  /** After every run the list is in insertion order, newest first: what an eviction
      takes is the oldest insertion. */
  lemma {:induction false} ListIsInsertionOrder(s: Settings, calls: seq<Call>)
    ensures Descending(s, calls, Run(s, calls).order)
  {
    if calls != [] {
      var init, c := calls[..|calls| - 1], calls[|calls| - 1];
      assert calls == init + [c];
      ListIsInsertionOrder(s, init);
      if c.key in Run(s, init).table {
        HitDescending(s, init, c, Run(s, init).order);
      } else {
        BoundedAndListed(s, init);
        RoomDescending(s, init, Run(s, init), c);
        RoomListed(s, Run(s, init), c);
        RoomIsOld(s, Run(s, init), c);
        PushDescending(s, init, c, RoomMade(s, Run(s, init), c).order);
      }
    }
  }
}
