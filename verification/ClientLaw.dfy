/** What the keyed limiter promises each client, sweeps and all, and what it drops to
    stay within its memory. */
module ClientLaw {
  import opened TokenBucket
  import opened Chains
  import opened Limiter
  import B = BucketLaw
  import opened SweepTransparency

  // ---------------------------------------------------------------- one key's own bucket

  /** When the key was used. */
  function Uses(calls: seq<Call>, k: Key): seq<Time> {
    if calls == [] then []
    else
      var init, c := calls[..|calls| - 1], calls[|calls| - 1];
      Uses(init, k) + if c.key == k then [c.use] else []
  }

  /** When the key's bucket was first created; 0 if it never was. */
  function Born(calls: seq<Call>, k: Key): Time {
    if calls == [] then 0
    else
      var init, c := calls[..|calls| - 1], calls[|calls| - 1];
      if Uses(init, k) == [] && c.key == k then c.create else Born(init, k)
  }

  /** How often the key was used before call h. */
  function Rank(calls: seq<Call>, k: Key, h: nat): nat
    requires h <= |calls|
  {
    |Uses(calls[..h], k)|
  }

  lemma {:induction false} UsesPrefix(calls: seq<Call>, k: Key, h: nat)
    requires h <= |calls|
    ensures Rank(calls, k, h) <= |Uses(calls, k)| && Uses(calls[..h], k) == Uses(calls, k)[..Rank(calls, k, h)]
    ensures Uses(calls[..h], k) != [] ==> Born(calls[..h], k) == Born(calls, k)
  {
    if h == |calls| {
      assert calls[..h] == calls;
    } else {
      var init := calls[..|calls| - 1];
      assert init[..h] == calls[..h];
      UsesPrefix(init, k, h);
    }
  }

  lemma UsesAt(calls: seq<Call>, k: Key, h: nat)
    requires h < |calls| && calls[h].key == k
    ensures Rank(calls, k, h) < |Uses(calls, k)| && Uses(calls, k)[Rank(calls, k, h)] == calls[h].use
    ensures Rank(calls, k, h + 1) == Rank(calls, k, h) + 1
  {
    var upto := calls[..h + 1];
    assert upto[..h] == calls[..h];
    UsesPrefix(calls, k, h + 1);
  }

  lemma RankSame(calls: seq<Call>, k: Key, h: nat)
    requires h < |calls| && calls[h].key != k
    ensures Rank(calls, k, h + 1) == Rank(calls, k, h)
  {
    assert calls[..h + 1][..h] == calls[..h];
  }

  /** Every use is some call's. */
  lemma {:induction false} CallOf(calls: seq<Call>, k: Key, j: nat) returns (h: nat)
    requires j < |Uses(calls, k)|
    ensures h < |calls| && calls[h].key == k && Rank(calls, k, h) == j
  {
    var n := |calls| - 1;
    var init := calls[..n];
    if j < |Uses(init, k)| {
      h := CallOf(init, k, j);
      assert init[..h] == calls[..h];
    } else {
      h := n;
    }
  }

  /** A limiter that never forgets keeps one bucket for each key, and what is done under
      another key does not touch it. */
  lemma {:induction false} OwnBucket(s: Settings, calls: seq<Call>, k: Key)
    ensures k in Remember(s, calls) <==> Uses(calls, k) != []
    ensures k in Remember(s, calls) ==>
      Remember(s, calls)[k] == B.After(s.policy, NewBucket(s.policy, Born(calls, k)), Uses(calls, k))
  {
    if calls != [] {
      var init, c := calls[..|calls| - 1], calls[|calls| - 1];
      OwnBucket(s, init, k);
      if c.key == k {
        var uses := Uses(init, k);
        assert (uses + [c.use])[..|uses|] == uses;
        assert uses == [] ==> B.After(s.policy, NewBucket(s.policy, c.create), uses) == NewBucket(s.policy, c.create);
      } else {
        assert Uses(calls, k) == Uses(init, k);
      }
    }
  }

  lemma {:induction false} OneAnswerEach(s: Settings, calls: seq<Call>)
    ensures |Answers(s, calls)| == |RememberedAnswers(s, calls)| == |calls|
  {
    if calls != [] {
      OneAnswerEach(s, calls[..|calls| - 1]);
    }
  }

  lemma {:induction false} RememberedAt(s: Settings, calls: seq<Call>, h: nat)
    requires h < |calls|
    ensures |RememberedAnswers(s, calls)| == |calls|
    ensures RememberedAnswers(s, calls)[h] == Answer(s, Remember(s, calls[..h]), calls[h])
  {
    OneAnswerEach(s, calls);
    var n := |calls| - 1;
    OneAnswerEach(s, calls[..n]);
    if h < n {
      RememberedAt(s, calls[..n], h);
      assert calls[..n][..h] == calls[..h];
    }
  }

  /** The bucket the key had when it was first used. */
  function Own(s: Settings, calls: seq<Call>, k: Key): Bucket { NewBucket(s.policy, Born(calls, k)) }

  lemma BornHere(s: Settings, calls: seq<Call>, h: nat)
    requires h < |calls| && Uses(calls[..h], calls[h].key) == []
    ensures Born(calls, calls[h].key) == calls[h].create
  {
    var k, upto := calls[h].key, calls[..h + 1];
    assert upto[..h] == calls[..h];
    assert Born(upto, k) == calls[h].create && Uses(upto, k) != [];
    UsesPrefix(calls, k, h + 1);
  }

  /** A call is answered by the key's own bucket. */
  lemma AnswerIsServed(s: Settings, calls: seq<Call>, h: nat)
    requires h < |calls|
    ensures |RememberedAnswers(s, calls)| == |calls|
    ensures var k := calls[h].key;
      && Rank(calls, k, h) < |Uses(calls, k)|
      && (RememberedAnswers(s, calls)[h] <==> B.Served(s.policy, Own(s, calls, k), Uses(calls, k), Rank(calls, k, h)))
  {
    var k := calls[h].key;
    RememberedAt(s, calls, h);
    OwnBucket(s, calls[..h], k);
    UsesAt(calls, k, h);
    UsesPrefix(calls, k, h);
    if Uses(calls[..h], k) == [] {
      BornHere(s, calls, h);
    }
  }

  // ---------------------------------------------------------------- who is served

  /** How many calls of the key, from call h on and before call i, were admitted. */
  function AdmittedFor(calls: seq<Call>, answers: seq<bool>, k: Key, h: nat, i: nat): nat
    requires h <= i <= |calls| == |answers|
  {
    if i == h then 0
    else AdmittedFor(calls, answers, k, h, i - 1) + if calls[i - 1].key == k && answers[i - 1] then 1 else 0
  }

  lemma {:induction false} RankRises(calls: seq<Call>, k: Key, h: nat, i: nat)
    requires h <= i <= |calls|
    ensures Rank(calls, k, h) <= Rank(calls, k, i) <= |Uses(calls, k)|
  {
    UsesPrefix(calls, k, i);
    UsesPrefix(calls[..i], k, h);
    assert calls[..i][..h] == calls[..h];
  }

  lemma CountNext(s: Settings, calls: seq<Call>, k: Key, j: nat, i: nat)
    requires i < |calls| && j <= Rank(calls, k, i)
    ensures |RememberedAnswers(s, calls)| == |calls| && Rank(calls, k, i) <= Rank(calls, k, i + 1) <= |Uses(calls, k)|
    ensures B.Count(s.policy, Own(s, calls, k), Uses(calls, k), j, Rank(calls, k, i + 1))
         == B.Count(s.policy, Own(s, calls, k), Uses(calls, k), j, Rank(calls, k, i))
            + if calls[i].key == k && RememberedAnswers(s, calls)[i] then 1 else 0
  {
    OneAnswerEach(s, calls);
    RankRises(calls, k, i, i + 1);
    if calls[i].key == k {
      AnswerIsServed(s, calls, i);
      UsesAt(calls, k, i);
    } else {
      RankSame(calls, k, i);
    }
  }

  lemma {:induction false} SameCount(s: Settings, calls: seq<Call>, k: Key, h: nat, i: nat)
    requires h <= i <= |calls|
    ensures |RememberedAnswers(s, calls)| == |calls| && Rank(calls, k, h) <= Rank(calls, k, i) <= |Uses(calls, k)|
    ensures AdmittedFor(calls, RememberedAnswers(s, calls), k, h, i)
         == B.Count(s.policy, Own(s, calls, k), Uses(calls, k), Rank(calls, k, h), Rank(calls, k, i))
    decreases i
  {
    OneAnswerEach(s, calls);
    RankRises(calls, k, h, i);
    if h < i {
      SameCount(s, calls, k, h, i - 1);
      CountNext(s, calls, k, Rank(calls, k, h), i - 1);
    }
  }

  lemma {:induction false} MonotoneAt(calls: seq<Call>, h: nat, i: nat)
    requires Monotone(calls) && h <= i < |calls|
    ensures calls[h].create <= calls[h].use <= calls[i].use
  {
    var n := |calls| - 1;
    if i < n {
      MonotoneAt(calls[..n], h, i);
    } else if h < n {
      MonotoneAt(calls[..n], h, n - 1);
    }
  }

  /** The uses of a key are in order and come after its bucket. */
  lemma UsesAreFresh(s: Settings, calls: seq<Call>, k: Key)
    requires Monotone(calls)
    ensures B.Fresh(s.policy, Own(s, calls, k), Uses(calls, k))
  {
    var times := Uses(calls, k);
    forall i, j | 0 <= i <= j < |times|
      ensures times[i] <= times[j]
    {
      var g := CallOf(calls, k, i);
      var h := CallOf(calls, k, j);
      UsesAt(calls, k, g);
      UsesAt(calls, k, h);
      if g > h {
        RankRises(calls, k, h, g);
      }
      MonotoneAt(calls, if g < h then g else h, if g < h then h else g);
    }
    if times != [] {
      var g := CallOf(calls, k, 0);
      UsesAt(calls, k, g);
      BornHere(s, calls, g);
      MonotoneAt(calls, g, g);
    }
  }

  /** What the bound says of the interval from call h to call i. */
  predicate Fits(s: Settings, calls: seq<Call>, answers: seq<bool>, h: nat, i: nat)
    requires h <= i < |calls| == |answers|
  {
    B.Bounded(s.policy, AdmittedFor(calls, answers, calls[i].key, h, i), calls[i].use - calls[h].use)
  }

  lemma FitsAlike(s: Settings, calls: seq<Call>, h: nat, i: nat)
    requires h <= i < |calls| && calls[h].key == calls[i].key
    ensures |RememberedAnswers(s, calls)| == |calls|
    ensures var k := calls[i].key;
      && Rank(calls, k, h) <= Rank(calls, k, i) < |Uses(calls, k)|
      && (Fits(s, calls, RememberedAnswers(s, calls), h, i)
          <==> B.Fits(s.policy, Own(s, calls, k), Uses(calls, k), Rank(calls, k, h), Rank(calls, k, i)))
  {
    SameInterval(s, calls, h, i);
  }

  lemma SameInterval(s: Settings, calls: seq<Call>, h: nat, i: nat)
    requires h <= i < |calls| && calls[h].key == calls[i].key
    ensures |RememberedAnswers(s, calls)| == |calls|
    ensures var k := calls[i].key;
      && Rank(calls, k, h) <= Rank(calls, k, i) < |Uses(calls, k)|
      && AdmittedFor(calls, RememberedAnswers(s, calls), k, h, i)
         == B.Count(s.policy, Own(s, calls, k), Uses(calls, k), Rank(calls, k, h), Rank(calls, k, i))
      && calls[i].use - calls[h].use == Uses(calls, k)[Rank(calls, k, i)] - Uses(calls, k)[Rank(calls, k, h)]
  {
    SameCount(s, calls, calls[i].key, h, i);
    UsesAt(calls, calls[i].key, h);
    UsesAt(calls, calls[i].key, i);
  }

  lemma CallBefore(calls: seq<Call>, j: nat, i: nat) returns (h: nat)
    requires i < |calls| && j <= Rank(calls, calls[i].key, i)
    ensures h <= i && calls[h].key == calls[i].key && Rank(calls, calls[i].key, h) == j
  {
    var k := calls[i].key;
    UsesAt(calls, k, i);
    h := CallOf(calls, k, j);
    if h > i {
      RankRises(calls, k, i + 1, h);
    }
  }

  lemma RememberedServedIff(s: Settings, calls: seq<Call>, i: nat)
    requires s.policy.Valid() && Monotone(calls) && i < |calls|
    ensures |RememberedAnswers(s, calls)| == |calls|
    ensures RememberedAnswers(s, calls)[i] <==>
      forall h: nat | h <= i && calls[h].key == calls[i].key :: Fits(s, calls, RememberedAnswers(s, calls), h, i)
  {
    var k := calls[i].key;
    var b, times, n := Own(s, calls, k), Uses(calls, k), Rank(calls, k, i);
    AnswerIsServed(s, calls, i);
    UsesAreFresh(s, calls, k);
    B.AdmittedIff(s.policy, b, times, n);
    forall h: nat | h <= i && calls[h].key == k
      ensures Rank(calls, k, h) <= n
      ensures Fits(s, calls, RememberedAnswers(s, calls), h, i) <==> B.Fits(s.policy, b, times, Rank(calls, k, h), n)
    {
      FitsAlike(s, calls, h, i);
    }
    if !B.Served(s.policy, b, times, n) {
      var j: nat :| j <= n && !B.Fits(s.policy, b, times, j, n);
      var h := CallBefore(calls, j, i);
    }
  }

  /** Where the TTL covers the refill time, and as long as the clock does not go back and
      no eviction is forced: a call is admitted if and only if no interval that ends
      with it would then hold more than burst + rate * length admitted calls of its key.
      What other keys do, and what the sweeps forget, makes no difference. */
  lemma ClientServedIff(s: Settings, calls: seq<Call>, i: nat)
    requires s.policy.Valid() && Covers(s) && Monotone(calls) && Unforced(s, calls) && i < |calls|
    ensures |Answers(s, calls)| == |calls|
    ensures Answers(s, calls)[i] <==>
      forall h: nat | h <= i && calls[h].key == calls[i].key :: Fits(s, calls, Answers(s, calls), h, i)
  {
    OneAnswerEach(s, calls);
    RunsAgree(s, calls);
    RememberedServedIff(s, calls, i);
  }

  // ---------------------------------------------------------------- what is dropped

  /** The calls that found no bucket. */
  function Misses(s: Settings, calls: seq<Call>): nat {
    if calls == [] then 0
    else
      var init, c := calls[..|calls| - 1], calls[|calls| - 1];
      Misses(s, init) + if c.key in Run(s, init).table then 0 else 1
  }

  lemma {:induction false} MissesCounted(s: Settings, calls: seq<Call>)
    ensures Run(s, calls).insertCt == Misses(s, calls)
  {
    if calls != [] {
      MissesCounted(s, calls[..|calls| - 1]);
    }
  }

  predicate Idle(s: Settings, b: Bucket, now: Time) { s.ttl > 0 && b.lastSeen < now - s.ttl }

  /** What is left when the n-th miss has dropped the idle keys, as every 256th does. */
  function Left(s: Settings, table: map<Key, Bucket>, n: nat, now: Time): set<Key> {
    set k | k in table && !(n % SWEEP_EVERY == 0 && Idle(s, table[k], now))
  }

  predicate Crowded(s: Settings, keys: set<Key>) { s.maxBuckets > 0 && |keys| >= s.maxBuckets }

  /** And when it has dropped them for want of room. */
  function Stay(s: Settings, table: map<Key, Bucket>, n: nat, c: Call): set<Key> {
    var left := Left(s, table, n, c.sweep);
    set k | k in left && !(Crowded(s, left) && Idle(s, table[k], c.cap))
  }

  function Only(table: map<Key, Bucket>, keys: set<Key>): map<Key, Bucket> { map k | k in table && k in keys :: table[k] }

  lemma CountSweeps(s: Settings, l: Lim, c: Call)
    ensures SweptByCount(s, l, c).table == Only(l.table, Left(s, l.table, l.insertCt + 1, c.sweep))
    ensures SweptByCount(s, l, c).table.Keys == Left(s, l.table, l.insertCt + 1, c.sweep)
  {
  }

  lemma CapSweeps(s: Settings, l: Lim, c: Call)
    ensures SweptByCap(s, l, c).table == Only(l.table, Stay(s, l.table, l.insertCt + 1, c))
    ensures SweptByCap(s, l, c).table.Keys == Stay(s, l.table, l.insertCt + 1, c)
  {
    CountSweeps(s, l, c);
    var n, left := SweptByCount(s, l, c), Left(s, l.table, l.insertCt + 1, c.sweep);
    assert AtCap(s, n) <==> Crowded(s, left) by {
      assert |n.table| == |n.table.Keys|;
    }
    assert Limiter.Fresh(n, c.cap - s.ttl) == set k | k in left && l.table[k].lastSeen >= c.cap - s.ttl;
  }

  lemma {:induction false} LastIsOldest(s: Settings, calls: seq<Call>, q: seq<Key>, i: nat)
    requires Descending(s, calls, q) && i < |q| - 1
    ensures InsertedBy(s, calls, q[i]) > InsertedBy(s, calls, q[|q| - 1])
  {
    var rest := q[1..];
    if i == 0 {
      assert rest[|rest| - 1] == q[|q| - 1] && q[|q| - 1] in Members(rest);
    } else {
      LastIsOldest(s, calls, rest, i - 1);
    }
  }

  lemma SweptDescending(s: Settings, calls: seq<Call>, l: Lim, c: Call)
    requires Descending(s, calls, l.order)
    ensures Descending(s, calls, SweptByCap(s, l, c).order)
  {
    var n := l.(insertCt := l.insertCt + 1);
    FilterDescending(s, calls, n.order, Limiter.Fresh(n, c.sweep - s.ttl));
    var a := SweptByCount(s, l, c);
    FilterDescending(s, calls, a.order, Limiter.Fresh(a, c.cap - s.ttl));
  }

  /** A list at the cap loses its last key, and no other. */
  lemma CutIsLast(s: Settings, l: Lim) returns (oldest: Key)
    requires Listed(l) && s.maxBuckets > 0 && |l.table| == s.maxBuckets
    ensures l.order != [] && oldest == l.order[|l.order| - 1] && oldest in l.table
    ensures Cut(s, l).table == map k | k in l.table && k != oldest :: l.table[k]
  {
    ListedCount(l);
    var n := |l.order| - 1;
    oldest := l.order[n];
    assert oldest in Members(l.order);
    PairsDiffer(l.order);
    forall k | k in l.table
      ensures k in Newest(l.order, n) <==> k != oldest
    {
      assert k in Members(l.order);
      var i :| 0 <= i < |l.order| && l.order[i] == k;
      if i < n {
        assert l.order[..n][i] == k;
      }
    }
  }

  ghost predicate Oldest(s: Settings, calls: seq<Call>, keys: set<Key>, k: Key) {
    k in keys && forall other | other in keys && other != k :: InsertedBy(s, calls, other) > InsertedBy(s, calls, k)
  }

  /** A table at the cap drops its oldest key. */
  lemma CrowdedDrops(s: Settings, calls: seq<Call>, l: Lim) returns (oldest: Key)
    requires Listed(l) && Descending(s, calls, l.order) && s.maxBuckets > 0 && |l.table| == s.maxBuckets
    ensures Oldest(s, calls, l.table.Keys, oldest) && Cut(s, l).table == Only(l.table, l.table.Keys - {oldest})
  {
    oldest := CutIsLast(s, l);
    forall k | k in l.table && k != oldest
      ensures InsertedBy(s, calls, k) > InsertedBy(s, calls, oldest)
    {
      assert k in Members(l.order);
      var i :| 0 <= i < |l.order| && l.order[i] == k;
      LastIsOldest(s, calls, l.order, i);
    }
  }

  /** What a miss keeps of the table. */
  ghost predicate Dropped(s: Settings, calls: seq<Call>, stay: set<Key>, kept: set<Key>) {
    if !Crowded(s, stay) then kept == stay else exists oldest :: Oldest(s, calls, stay, oldest) && kept == stay - {oldest}
  }

  /** What every run keeps of the list and the map. */
  ghost predicate Kept(s: Settings, calls: seq<Call>, l: Lim) {
    Listed(l) && Descending(s, calls, l.order) && (s.maxBuckets > 0 ==> |l.table| <= s.maxBuckets)
  }

  /** The swept table is in order and no larger than before. */
  lemma SweptInOrder(s: Settings, calls: seq<Call>, l: Lim, c: Call)
    requires Kept(s, calls, l)
    ensures Listed(SweptByCap(s, l, c)) && Descending(s, calls, SweptByCap(s, l, c).order)
    ensures s.maxBuckets > 0 ==> |SweptByCap(s, l, c).table| <= s.maxBuckets
  {
    SweptListed(s, l, c);
    SweptDescending(s, calls, l, c);
    CapSweeps(s, l, c);
    var swept := SweptByCap(s, l, c).table;
    SubsetCount(swept.Keys, l.table.Keys);
    assert |swept| == |swept.Keys| && |l.table| == |l.table.Keys|;
  }

  lemma CutDrops(s: Settings, calls: seq<Call>, l: Lim)
    requires Listed(l) && Descending(s, calls, l.order) && (s.maxBuckets > 0 ==> |l.table| <= s.maxBuckets)
    ensures Cut(s, l).table == Only(l.table, Cut(s, l).table.Keys) && Dropped(s, calls, l.table.Keys, Cut(s, l).table.Keys)
  {
    assert |l.table| == |l.table.Keys|;
    if Crowded(s, l.table.Keys) {
      var oldest := CrowdedDrops(s, calls, l);
      assert Cut(s, l).table.Keys == l.table.Keys - {oldest};
    }
  }

  lemma MissDrops(s: Settings, calls: seq<Call>, l: Lim, c: Call)
    requires Kept(s, calls, l)
    ensures var kept := RoomMade(s, l, c).table.Keys;
      RoomMade(s, l, c).table == Only(l.table, kept) && Dropped(s, calls, Stay(s, l.table, l.insertCt + 1, c), kept)
  {
    CapSweeps(s, l, c);
    SweptInOrder(s, calls, l, c);
    CutDrops(s, calls, SweptByCap(s, l, c));
  }

  lemma MissAdds(s: Settings, l: Lim, c: Call)
    requires c.key !in l.table
    ensures var after, room := Allow(s, l, c).table, RoomMade(s, l, c).table;
      c.key in after && after.Keys - {c.key} == room.Keys && forall k | k in after && k != c.key :: k in room && after[k] == room[k]
  {
    RoomIsOld(s, l, c);
  }

  /** What the call that is the n-th miss, if it is one, makes of the table. */
  ghost predicate Exactly(s: Settings, calls: seq<Call>, c: Call, before: map<Key, Bucket>, after: map<Key, Bucket>, n: nat) {
    && c.key in after && (forall k | k in after && k != c.key :: k in before && after[k] == before[k])
    && (if c.key in before then after.Keys == before.Keys else Dropped(s, calls, Stay(s, before, n, c), after.Keys - {c.key}))
  }

  lemma HitExactly(s: Settings, calls: seq<Call>, l: Lim, c: Call, n: nat)
    requires c.key in l.table
    ensures Exactly(s, calls, c, l.table, Allow(s, l, c).table, n)
  {
  }

  lemma MissExactly(s: Settings, calls: seq<Call>, c: Call, before: map<Key, Bucket>, room: map<Key, Bucket>, after: map<Key, Bucket>, n: nat)
    requires c.key !in before && room == Only(before, room.Keys) && Dropped(s, calls, Stay(s, before, n, c), room.Keys)
    requires c.key in after && after.Keys - {c.key} == room.Keys && forall k | k in after && k != c.key :: k in room && after[k] == room[k]
    ensures Exactly(s, calls, c, before, after, n)
  {
  }

  /** Which keys a call drops, after every run and whatever the clock: a hit none. A miss
      drops the keys idle past the TTL if it is the 256th, or finds the table at the
      cap; if the table is still at the cap then, it drops one more, which was
      inserted before all others; and it adds its own. No bucket that stays is changed. */
  lemma DropsExactly(s: Settings, calls: seq<Call>, c: Call)
    ensures Exactly(s, calls, c, Run(s, calls).table, Allow(s, Run(s, calls), c).table, Misses(s, calls) + 1)
  {
    BoundedAndListed(s, calls);
    ListIsInsertionOrder(s, calls);
    MissesCounted(s, calls);
    DropsFrom(s, calls, Run(s, calls), c);
  }

  lemma DropsFrom(s: Settings, calls: seq<Call>, l: Lim, c: Call)
    requires Kept(s, calls, l)
    ensures Exactly(s, calls, c, l.table, Allow(s, l, c).table, l.insertCt + 1)
  {
    if c.key in l.table {
      HitExactly(s, calls, l, c, l.insertCt + 1);
    } else {
      MissDrops(s, calls, l, c);
      MissAdds(s, l, c);
      MissExactly(s, calls, c, l.table, RoomMade(s, l, c).table, Allow(s, l, c).table, l.insertCt + 1);
    }
  }

  lemma {:induction false} SubsetCount<T>(a: set<T>, b: set<T>)
    requires a <= b
    ensures |a| <= |b|
  {
    if a != {} {
      var x :| x in a;
      SubsetCount(a - {x}, b - {x});
    }
  }
}
