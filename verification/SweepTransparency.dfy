/** When forgetting idle keys cannot be noticed. */
module SweepTransparency {
  import opened TokenBucket
  import opened Limiter

  /** The clock never goes back: not inside a call, not between calls. */
  predicate InOrder(c: Call, since: Time) { since <= c.sweep <= c.cap <= c.create <= c.use }

  predicate Monotone(calls: seq<Call>) {
    calls == [] ||
    var init, c := calls[..|calls| - 1], calls[|calls| - 1];
    Monotone(init) && InOrder(c, if init == [] then c.sweep else init[|init| - 1].use)
  }

  /** No call of the run has to evict a bucket that is not idle. */
  predicate Unforced(s: Settings, calls: seq<Call>) {
    calls == [] ||
    var init, c := calls[..|calls| - 1], calls[|calls| - 1];
    Unforced(s, init) && !Forced(s, Run(s, init), c)
  }

  /** How long a swept key stays away at least. The sweep compares strictly and in whole
      nanoseconds, hence the one nanosecond. Under a cap of one bucket the key that
      took its place has to go idle too before it can come back without force. */
  function Away(s: Settings): nat { if s.maxBuckets == 1 then 2 * (s.ttl + 1) else s.ttl + 1 }

  /** A bucket untouched for that long has filled up. */
  predicate Covers(s: Settings) { s.ttl == 0 || s.policy.burst as real <= Gain(s.policy, Away(s)) }

  predicate Settled(p: Policy, b: Bucket, now: Time) { Sound(p, b) && b.last == b.lastSeen <= now }

  predicate Full(p: Policy, b: Bucket, now: Time) { p.burst as real <= b.tokens + Gain(p, now - b.last) }

  // ---------------------------------------------------------------- buckets

  lemma FullStays(p: Policy, b: Bucket, now: Time, later: Time)
    requires p.Valid() && Full(p, b, now) && now <= later
    ensures Full(p, b, later)
  {
    GainAdds(p, now - b.last, later - now);
    GainAdds(p, later - now, 0);
  }

  lemma AwayIsFull(s: Settings, b: Bucket, now: Time)
    requires s.policy.Valid() && s.ttl > 0 && Covers(s) && Settled(s.policy, b, b.last) && b.last + Away(s) <= now
    ensures Full(s.policy, b, now)
  {
    GainAdds(s.policy, Away(s), now - b.last - Away(s));
    GainAdds(s.policy, now - b.last - Away(s), 0);
  }

  /** A full bucket and a new one are the same bucket once used. */
  lemma FullIsNew(p: Policy, b: Bucket, create: Time, now: Time)
    requires p.Valid() && Settled(p, b, now) && Full(p, b, now) && create <= now
    ensures Allowed(p, b, now) == Allowed(p, NewBucket(p, create), now)
    ensures Admits(p, b, now) == Admits(p, NewBucket(p, create), now)
  {
    GainAdds(p, now - create, 0);
    GainAdds(p, now - b.last, 0);
    assert Refilled(p, b, now).tokens == p.burst as real;
  }

  lemma AllowSettles(p: Policy, b: Bucket, now: Time)
    requires p.Valid() && Settled(p, b, now)
    ensures Settled(p, Allowed(p, b, now), now)
  {
    AllowKeepsSound(p, b, now);
  }

  // ---------------------------------------------------------------- simulation

  /** The two limiters agree on every key both hold; a key only one of them still
      holds has a full bucket there. */
  predicate Sim(p: Policy, table: map<Key, Bucket>, m: map<Key, Bucket>, now: Time) {
    && (forall k | k in table :: k in m && table[k] == m[k])
    && (forall k | k in m :: Settled(p, m[k], now) && (k in table || Full(p, m[k], now)))
  }

  lemma SimLater(p: Policy, table: map<Key, Bucket>, m: map<Key, Bucket>, now: Time, later: Time)
    requires p.Valid() && Sim(p, table, m, now) && now <= later
    ensures Sim(p, table, m, later)
  {
    forall k | k in m && k !in table
      ensures Full(p, m[k], later)
    {
      FullStays(p, m[k], now, later);
    }
  }

  lemma SimSweep(s: Settings, l: Lim, m: map<Key, Bucket>, now: Time)
    requires s.policy.Valid() && s.ttl > 0 && s.maxBuckets != 1 && Covers(s) && Sim(s.policy, l.table, m, now)
    ensures Sim(s.policy, Sweep(l, now - s.ttl).table, m, now)
  {
    forall k | k in m && k !in Sweep(l, now - s.ttl).table
      ensures Full(s.policy, m[k], now)
    {
      if k in l.table {
        AwayIsFull(s, m[k], now);
      }
    }
  }

  lemma SimRoom(s: Settings, l: Lim, m: map<Key, Bucket>, c: Call, since: Time)
    requires s.policy.Valid() && s.maxBuckets != 1 && Covers(s) && Sim(s.policy, l.table, m, since)
    requires InOrder(c, since) && c.key !in l.table && !Forced(s, l, c)
    ensures Sim(s.policy, RoomMade(s, l, c).table, m, c.use)
  {
    var p := s.policy;
    var n := l.(insertCt := l.insertCt + 1);
    SimLater(p, n.table, m, since, c.sweep);
    if s.ttl > 0 {
      SimSweep(s, n, m, c.sweep);
    }
    var a := SweptByCount(s, l, c);
    SimLater(p, a.table, m, c.sweep, c.cap);
    if s.ttl > 0 {
      SimSweep(s, a, m, c.cap);
    }
    SimLater(p, SweptByCap(s, l, c).table, m, c.cap, c.use);
  }

  lemma SimCall(s: Settings, l: Lim, m: map<Key, Bucket>, c: Call, since: Time)
    requires s.policy.Valid() && s.maxBuckets != 1 && Covers(s) && Sim(s.policy, l.table, m, since)
    requires InOrder(c, since) && !Forced(s, l, c)
    ensures Answer(s, l.table, c) == Answer(s, m, c)
    ensures Sim(s.policy, Allow(s, l, c).table, m[c.key := Allowed(s.policy, BucketFor(s, m, c), c.use)], c.use)
  {
    var p := s.policy;
    SimLater(p, l.table, m, since, c.use);
    if c.key in m {
      AllowSettles(p, m[c.key], c.use);
      if c.key !in l.table {
        FullIsNew(p, m[c.key], c.create, c.use);
      }
    } else {
      AllowSettles(p, NewBucket(p, c.create), c.use);
    }
    if c.key !in l.table {
      SimRoom(s, l, m, c, since);
    }
  }

  function Since(calls: seq<Call>): Time { if calls == [] then 0 else calls[|calls| - 1].use }

  lemma {:induction false} RunsAgreeAbove(s: Settings, calls: seq<Call>)
    requires s.policy.Valid() && s.maxBuckets != 1 && Covers(s) && Monotone(calls) && Unforced(s, calls)
    ensures Answers(s, calls) == RememberedAnswers(s, calls)
    ensures calls != [] ==> Sim(s.policy, Run(s, calls).table, Remember(s, calls), Since(calls))
  {
    if calls != [] {
      var init, c := calls[..|calls| - 1], calls[|calls| - 1];
      RunsAgreeAbove(s, init);
      SimCall(s, Run(s, init), Remember(s, init), c, if init == [] then c.sweep else Since(init));
    }
  }

  // ---------------------------------------------------------------- a cap of one bucket

  /** The one bucket is b, under key. A key forgotten will be full by the time the
      holder of the bucket has gone idle. */
  predicate Alone(s: Settings, key: Key, b: Bucket, m: map<Key, Bucket>, now: Time) {
    && key in m && m[key] == b
    && (forall k | k in m :: Settled(s.policy, m[k], now) && (k == key || Full(s.policy, m[k], b.lastSeen + s.ttl + 1)))
  }

  predicate SimOne(s: Settings, table: map<Key, Bucket>, m: map<Key, Bucket>, now: Time) {
    if m == map[] then table == map[]
    else exists key :: key in table && table == map[key := table[key]] && Alone(s, key, table[key], m, now)
  }

  lemma SoleMember(table: map<Key, Bucket>, key: Key)
    requires key in table && table == map[key := table[key]]
    ensures |table| == 1
  {
    assert table.Keys == {key} && |table| == |table.Keys|;
  }

  /** An unforced newcomer finds the bucket's holder idle, and takes its place. */
  lemma HolderIsIdle(s: Settings, l: Lim, key: Key, c: Call)
    requires s.maxBuckets == 1 && key in l.table && l.table == map[key := l.table[key]]
    requires c.key != key && !Forced(s, l, c) && InOrder(c, c.sweep)
    ensures s.ttl > 0 && l.table[key].lastSeen + s.ttl + 1 <= c.use && RoomMade(s, l, c).table == map[]
  {
    SoleMember(l.table, key);
    var a, b := SweptByCount(s, l, c), SweptByCap(s, l, c);
    assert |b.table| == 0;
    assert key !in b.table;
    assert key in a.table ==> a.table == l.table;
  }

  lemma AloneTouched(s: Settings, b: Bucket, m: map<Key, Bucket>, c: Call, since: Time)
    requires s.policy.Valid() && Alone(s, c.key, b, m, since) && since <= c.use
    ensures var after := Allowed(s.policy, b, c.use); Alone(s, c.key, after, m[c.key := after], c.use)
  {
    var after := Allowed(s.policy, b, c.use);
    AllowSettles(s.policy, b, c.use);
    forall k | k in m && k != c.key
      ensures Full(s.policy, m[k], after.lastSeen + s.ttl + 1)
    {
      FullStays(s.policy, m[k], b.lastSeen + s.ttl + 1, after.lastSeen + s.ttl + 1);
    }
  }

  lemma AloneReplaced(s: Settings, key: Key, b: Bucket, m: map<Key, Bucket>, c: Call, since: Time)
    requires s.policy.Valid() && s.maxBuckets == 1 && s.ttl > 0 && Covers(s) && Alone(s, key, b, m, since)
    requires c.key != key && InOrder(c, since) && b.lastSeen + s.ttl + 1 <= c.use
    ensures var p, mine := s.policy, BucketFor(s, m, c);
      var after := Allowed(p, mine, c.use);
      && after == Allowed(p, NewBucket(p, c.create), c.use)
      && Admits(p, mine, c.use) == Admits(p, NewBucket(p, c.create), c.use)
      && Alone(s, c.key, after, m[c.key := after], c.use)
  {
    var p, mine := s.policy, BucketFor(s, m, c);
    var after := Allowed(p, mine, c.use);
    if c.key in m {
      FullStays(p, mine, b.lastSeen + s.ttl + 1, c.use);
      FullIsNew(p, mine, c.create, c.use);
    }
    AllowSettles(p, mine, c.use);
    forall k | k in m && k != c.key
      ensures Full(p, m[k], c.use + s.ttl + 1)
    {
      if k == key {
        AwayIsFull(s, b, c.use + s.ttl + 1);
      } else {
        FullStays(p, m[k], b.lastSeen + s.ttl + 1, c.use + s.ttl + 1);
      }
    }
  }

  lemma SimOneCall(s: Settings, l: Lim, m: map<Key, Bucket>, c: Call, since: Time)
    requires s.policy.Valid() && s.maxBuckets == 1 && Covers(s) && SimOne(s, l.table, m, since)
    requires InOrder(c, since) && !Forced(s, l, c)
    ensures Answer(s, l.table, c) == Answer(s, m, c)
    ensures SimOne(s, Allow(s, l, c).table, m[c.key := Allowed(s.policy, BucketFor(s, m, c), c.use)], c.use)
  {
    var p := s.policy;
    var after := Allowed(p, BucketFor(s, m, c), c.use);
    if m == map[] {
      AllowSettles(p, NewBucket(p, c.create), c.use);
      assert RoomMade(s, l, c).table == map[];
    } else {
      var key :| key in l.table && l.table == map[key := l.table[key]] && Alone(s, key, l.table[key], m, since);
      if c.key == key {
        AloneTouched(s, l.table[key], m, c, since);
      } else {
        HolderIsIdle(s, l, key, c);
        AloneReplaced(s, key, l.table[key], m, c, since);
      }
    }
    assert Allow(s, l, c).table == map[c.key := after];
  }

  lemma {:induction false} RunsAgreeAlone(s: Settings, calls: seq<Call>)
    requires s.policy.Valid() && s.maxBuckets == 1 && Covers(s) && Monotone(calls) && Unforced(s, calls)
    ensures Answers(s, calls) == RememberedAnswers(s, calls)
    ensures SimOne(s, Run(s, calls).table, Remember(s, calls), Since(calls))
  {
    if calls != [] {
      var init, c := calls[..|calls| - 1], calls[|calls| - 1];
      RunsAgreeAlone(s, init);
      SimOneCall(s, Run(s, init), Remember(s, init), c, if init == [] then c.sweep else Since(init));
    }
  }

  /** Where the TTL covers the refill time, no monotone run without a forced eviction
      can tell the limiter from one that never forgets a key. */
  lemma RunsAgree(s: Settings, calls: seq<Call>)
    requires s.policy.Valid() && Covers(s) && Monotone(calls) && Unforced(s, calls)
    ensures Answers(s, calls) == RememberedAnswers(s, calls)
  {
    if s.maxBuckets == 1 {
      RunsAgreeAlone(s, calls);
    } else {
      RunsAgreeAbove(s, calls);
    }
  }

  // ---------------------------------------------------------------- the exact condition

  /** Whatever the calls, as long as the clock is monotone and no eviction is forced,
      the limiter answers as if it never forgot a key. */
  ghost predicate Transparent(s: Settings) {
    forall calls :: Monotone(calls) && Unforced(s, calls) ==> Answers(s, calls) == RememberedAnswers(s, calls)
  }

  lemma Rearrange(x: real, rate: real, burst: real)
    requires rate > 0.0
    ensures burst <= x / SECOND * rate <==> burst / rate * SECOND <= x
  {
    var q := burst / rate;
    assert q * rate == burst;
    assert x / SECOND * rate - burst == (x / SECOND - q) * rate;
    if q <= x / SECOND {
      assert (x / SECOND - q) * rate >= 0.0;
    } else {
      assert (q - x / SECOND) * rate > 0.0;
    }
  }

  /** The refill time that the configuration is good for. */
  function Affordable(maxBuckets: int, idleTTL: int): nat {
    var ttl := if idleTTL > DAY then idleTTL else DAY;
    if maxBuckets == 1 then 2 * (ttl + 1) else ttl + 1
  }

  /** In terms of the configuration: idle buckets are full unless the refill time was
      clamped, that is unless burst / rate is longer than a day and longer than the
      configured TTL, or twice that under a cap of one. */
  lemma CoversIff(maxBuckets: int, idleTTL: int, p: Policy)
    requires p.Valid()
    ensures Covers(Settings(p, ResolveMaxBuckets(maxBuckets), ResolveIdleTTL(idleTTL, p)))
            <==> idleTTL < 0 || RefillTime(p) <= Affordable(maxBuckets, idleTTL) as real
  {
    var s := Settings(p, ResolveMaxBuckets(maxBuckets), ResolveIdleTTL(idleTTL, p));
    Rearrange(Away(s) as real, p.rate, p.burst as real);
  }

  function At(k: Key, t: Time): Call { Call(k, t, t, t, t) }

  function Again(calls: seq<Call>, c: Call, n: nat): seq<Call> {
    if n == 0 then calls else Again(calls, c, n - 1) + [c]
  }

  /** A run that keeps to the rules, and where both limiters are after it. */
  predicate Ruled(s: Settings, calls: seq<Call>, now: Time) {
    Monotone(calls) && Unforced(s, calls) && calls != [] && Since(calls) == now
  }

  lemma OneMore(s: Settings, calls: seq<Call>, c: Call)
    requires calls == [] || Ruled(s, calls, Since(calls))
    requires InOrder(c, if calls == [] then c.sweep else Since(calls)) && !Forced(s, Run(s, calls), c)
    ensures Ruled(s, calls + [c], c.use)
    ensures Run(s, calls + [c]) == Allow(s, Run(s, calls), c)
    ensures Remember(s, calls + [c])
            == Remember(s, calls)[c.key := Allowed(s.policy, BucketFor(s, Remember(s, calls), c), c.use)]
    ensures Answers(s, calls + [c]) == Answers(s, calls) + [Answer(s, Run(s, calls).table, c)]
    ensures RememberedAnswers(s, calls + [c]) == RememberedAnswers(s, calls) + [Answer(s, Remember(s, calls), c)]
  {
    assert (calls + [c])[..|calls|] == calls;
  }

  lemma FirstCall(s: Settings, c: Call)
    ensures !Forced(s, EMPTY, c) && RoomMade(s, EMPTY, c) == Lim([], map[], 1)
  {
  }

  /** An endless supply of keys. */
  ghost predicate Injective(name: nat -> Key) {
    forall i: nat, j: nat :: name(i) == name(j) ==> i == j
  }

  /** burst requests at time 0 empty the first key's bucket. */
  lemma {:induction false} Drain(s: Settings, k: Key, n: nat)
    requires s.policy.Valid() && 1 <= n <= s.policy.burst
    ensures var calls, b := Again([], At(k, 0), n), Bucket((s.policy.burst - n) as real, 0, 0);
            Ruled(s, calls, 0) && Run(s, calls) == Lim([k], map[k := b], 1) && Remember(s, calls) == map[k := b]
  {
    var c := At(k, 0);
    if n == 1 {
      assert Again([], c, 1) == [] + [c];
      FirstCall(s, c);
      OneMore(s, [], c);
    } else {
      Drain(s, k, n - 1);
      var b := Bucket((s.policy.burst - (n - 1)) as real, 0, 0);
      assert Allowed(s.policy, b, 0) == Bucket((s.policy.burst - n) as real, 0, 0);
      OneMore(s, Again([], c, n - 1), c);
    }
  }

  /** The first n keys, all last seen at time 0. */
  ghost predicate Crowded(l: Lim, name: nat -> Key, n: nat) {
    && l.insertCt == n == |l.table|
    && (forall i: nat | i >= n :: name(i) !in l.table)
    && (forall k | k in l.table :: l.table[k].lastSeen == 0)
  }

  /** And the first of them drained. */
  ghost predicate Crowd(s: Settings, name: nat -> Key, calls: seq<Call>, n: nat) {
    && Ruled(s, calls, 0) && Crowded(Run(s, calls), name, n)
    && name(0) in Remember(s, calls) && Remember(s, calls)[name(0)] == Bucket(0.0, 0, 0)
  }

  /** One more key at time 0 before any sweep is due. */
  lemma GatherOne(s: Settings, name: nat -> Key, l: Lim, n: nat)
    requires s.policy.Valid() && Injective(name) && 2 <= n < SWEEP_EVERY && (s.maxBuckets > 0 ==> n <= s.maxBuckets)
    requires Crowded(l, name, n - 1)
    ensures !Forced(s, l, At(name(n - 1), 0)) && Crowded(Allow(s, l, At(name(n - 1), 0)), name, n)
  {
    var c := At(name(n - 1), 0);
    assert c.key !in l.table;
    assert RoomMade(s, l, c) == l.(insertCt := n);
    assert Allow(s, l, c).table.Keys == l.table.Keys + {c.key};
  }

  lemma {:induction false} Gather(s: Settings, name: nat -> Key, n: nat) returns (calls: seq<Call>)
    requires s.policy.Valid() && Injective(name)
    requires 1 <= n < SWEEP_EVERY && (s.maxBuckets > 0 ==> n <= s.maxBuckets)
    ensures Crowd(s, name, calls, n)
  {
    if n == 1 {
      calls := Again([], At(name(0), 0), s.policy.burst);
      Drain(s, name(0), s.policy.burst);
    } else {
      var fewer := Gather(s, name, n - 1);
      GatherOne(s, name, Run(s, fewer), n);
      OneMore(s, fewer, At(name(n - 1), 0));
      calls := fewer + [At(name(n - 1), 0)];
      assert name(0) != name(n - 1);
    }
  }

  /** The sweeping limiter has forgotten the key; the other has it, drained. */
  predicate Forgotten(s: Settings, first: Key, l: Lim, m: map<Key, Bucket>) {
    && first !in l.table && |l.table| == 1
    && (forall k | k in l.table :: l.table[k].lastSeen == s.ttl + 1)
    && first in m && m[first] == Bucket(0.0, 0, 0)
  }

  /** One more key just over the TTL later, and the sweep takes all the others. */
  lemma ForgetAll(s: Settings, name: nat -> Key, l: Lim, n: nat)
    requires s.ttl > 0 && (n + 1 == SWEEP_EVERY || n == s.maxBuckets) && Crowded(l, name, n)
    ensures var c := At(name(n), s.ttl + 1);
            c.key !in l.table && !Forced(s, l, c) && RoomMade(s, l, c).table == map[]
  {
    var c := At(name(n), s.ttl + 1);
    assert c.key !in l.table;
    assert Sweep(l.(insertCt := n + 1), 1).table == map[];
    assert SweptByCap(s, l, c).table == map[];
    assert |SweptByCap(s, l, c).table| == 0;
  }

  lemma Forget(s: Settings, name: nat -> Key, n: nat, crowd: seq<Call>) returns (calls: seq<Call>)
    requires s.policy.Valid() && s.ttl > 0 && Injective(name) && n >= 1 && Crowd(s, name, crowd, n)
    requires n + 1 == SWEEP_EVERY || n == s.maxBuckets
    ensures Ruled(s, calls, s.ttl + 1) && Forgotten(s, name(0), Run(s, calls), Remember(s, calls))
  {
    var c, l := At(name(n), s.ttl + 1), Run(s, crowd);
    ForgetAll(s, name, l, n);
    OneMore(s, crowd, c);
    calls := crowd + [c];
    assert Run(s, calls).table.Keys == {c.key};
    assert name(0) != name(n);
  }

  /** What each limiter has left for the key after n more requests for it. */
  predicate Left(s: Settings, first: Key, l: Lim, m: map<Key, Bucket>, n: nat) {
    var p, t, c := s.policy, Away(s), At(first, Away(s));
    var a := Refilled(p, BucketFor(s, l.table, c), t);
    && !Forced(s, l, c) && a.tokens == (p.burst - n) as real && a.last == t
    && first in m
    && Refilled(p, m[first], t).tokens == Gain(p, t) - n as real && Refilled(p, m[first], t).last == t
  }

  lemma LeftAtFirst(s: Settings, first: Key, l: Lim, m: map<Key, Bucket>)
    requires s.policy.Valid() && s.ttl > 0 && Forgotten(s, first, l, m) && !Covers(s)
    ensures Left(s, first, l, m, 0)
  {
    var c := At(first, Away(s));
    var counted := l.(insertCt := l.insertCt + 1);
    if s.maxBuckets == 1 {
      assert Sweep(counted, c.cap - s.ttl).table == map[];
      assert |SweptByCap(s, l, c).table| == 0;
    } else {
      assert Sweep(counted, 1).table == l.table;
      assert SweptByCap(s, l, c).table == l.table;
    }
  }

  lemma LeftAfter(s: Settings, first: Key, l: Lim, m: map<Key, Bucket>, n: nat)
    requires s.policy.Valid() && Left(s, first, l, m, n) && !Covers(s)
    requires (n + 1) as real <= Gain(s.policy, Away(s))
    ensures var c := At(first, Away(s));
            Left(s, first, Allow(s, l, c), m[c.key := Allowed(s.policy, BucketFor(s, m, c), c.use)], n + 1)
  {
  }

  /** A run that ends in time for the key to come back, with that much left for it. */
  predicate Spending(s: Settings, first: Key, calls: seq<Call>, n: nat) {
    Ruled(s, calls, Since(calls)) && Since(calls) <= Away(s) && Left(s, first, Run(s, calls), Remember(s, calls), n)
  }

  lemma SpendOne(s: Settings, first: Key, calls: seq<Call>, n: nat)
    requires s.policy.Valid() && !Covers(s) && Spending(s, first, calls, n) && (n + 1) as real <= Gain(s.policy, Away(s))
    ensures Spending(s, first, calls + [At(first, Away(s))], n + 1)
  {
    LeftAfter(s, first, Run(s, calls), Remember(s, calls), n);
    OneMore(s, calls, At(first, Away(s)));
  }

  lemma {:induction false} Spend(s: Settings, first: Key, forgot: seq<Call>, n: nat)
    requires s.policy.Valid() && s.ttl > 0 && !Covers(s)
    requires Ruled(s, forgot, s.ttl + 1) && Forgotten(s, first, Run(s, forgot), Remember(s, forgot))
    requires n as real <= Gain(s.policy, Away(s))
    ensures Spending(s, first, Again(forgot, At(first, Away(s)), n), n)
  {
    if n == 0 {
      LeftAtFirst(s, first, Run(s, forgot), Remember(s, forgot));
    } else {
      Spend(s, first, forgot, n - 1);
      SpendOne(s, first, Again(forgot, At(first, Away(s)), n - 1), n - 1);
    }
  }

  lemma LastDiffers(a: seq<bool>, b: seq<bool>)
    ensures a + [true] != b + [false]
  {
    assert (a + [true])[|a|] && !(b + [false])[|b|];
  }

  lemma LeftAnswers(s: Settings, first: Key, l: Lim, m: map<Key, Bucket>, n: nat)
    requires s.policy.Valid() && !Covers(s) && Left(s, first, l, m, n)
    requires n as real <= Gain(s.policy, Away(s)) < n as real + 1.0
    ensures Answer(s, l.table, At(first, Away(s))) && !Answer(s, m, At(first, Away(s)))
  {
  }

  lemma LeftDiffers(s: Settings, first: Key, calls: seq<Call>, n: nat)
    requires s.policy.Valid() && !Covers(s) && Spending(s, first, calls, n) && n as real <= Gain(s.policy, Away(s)) < n as real + 1.0
    ensures !Transparent(s)
  {
    var c := At(first, Away(s));
    LeftAnswers(s, first, Run(s, calls), Remember(s, calls), n);
    OneMore(s, calls, c);
    LastDiffers(Answers(s, calls), RememberedAnswers(s, calls));
    assert Answers(s, calls + [c]) != RememberedAnswers(s, calls + [c]);
  }

  /** A run on which the two limiters part: drain a key, let enough other keys come for
      a sweep to be due, and come back just over the TTL later. */
  lemma UncoveredDiffers(s: Settings, name: nat -> Key)
    requires s.policy.Valid() && Injective(name) && !Covers(s)
    ensures !Transparent(s)
  {
    var n := if 0 < s.maxBuckets < SWEEP_EVERY - 1 then s.maxBuckets else SWEEP_EVERY - 1;
    var crowd := Gather(s, name, n);
    var forgot := Forget(s, name, n, crowd);
    GainAdds(s.policy, Away(s), 0);
    var tokens := Gain(s.policy, Away(s)).Floor;
    Spend(s, name(0), forgot, tokens);
    LeftDiffers(s, name(0), Again(forgot, At(name(0), Away(s)), tokens), tokens);
  }

  /** The documentation promises that eviction of idle buckets loses no accuracy. That
      holds if and only if the TTL covers the refill time; CoversIff says which
      configurations that is. */
  lemma TransparentIff(s: Settings, name: nat -> Key)
    requires s.policy.Valid() && Injective(name)
    ensures Transparent(s) <==> Covers(s)
  {
    if Covers(s) {
      forall calls | Monotone(calls) && Unforced(s, calls)
        ensures Answers(s, calls) == RememberedAnswers(s, calls)
      {
        RunsAgree(s, calls);
      }
    } else {
      UncoveredDiffers(s, name);
    }
  }

  /** The same in terms of what an operator configures: rate, burst, cap and TTL. */
  lemma ConfiguredTransparentIff(p: Policy, maxBuckets: int, idleTTL: int, name: nat -> Key)
    requires p.Valid() && Injective(name)
    ensures Transparent(Settings(p, ResolveMaxBuckets(maxBuckets), ResolveIdleTTL(idleTTL, p)))
            <==> idleTTL < 0 || RefillTime(p) <= Affordable(maxBuckets, idleTTL) as real
  {
    TransparentIff(Settings(p, ResolveMaxBuckets(maxBuckets), ResolveIdleTTL(idleTTL, p)), name);
    CoversIff(maxBuckets, idleTTL, p);
  }
}
