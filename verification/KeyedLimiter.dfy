/** The limiter as the source keeps it: buckets on the heap, a map from key to bucket
    and an intrusive FIFO list with head and tail. Every method is proved against the
    value in Limiter. All of it runs under the limiter's mutex; the clock readings of
    a call are its parameters. */
module KeyedLimiter {
  import opened Windows
  import opened Chains
  import opened TokenBucket
  import opened Limiter

  class TokenBucketNode {
    const policy: Policy
    const key: Key
    var tokens: real
    var last: Time
    var lastSeen: Time
    var prev: TokenBucketNode?
    var next: TokenBucketNode?
    var inList: bool

    function Value(): Bucket
      reads this`tokens, this`last, this`lastSeen
    {
      Bucket(tokens, last, lastSeen)
    }

    constructor (policy: Policy, key: Key, now: Time)
      ensures this.policy == policy && this.key == key && Value() == NewBucket(policy, now)
      ensures prev == null && next == null && !inList
    {
      this.policy, this.key := policy, key;
      tokens, last, lastSeen := policy.burst as real, now, now;
      prev, next, inList := null, null, false;
    }

    /** Refill for the elapsed time, then take a token if there is one. */
    method Allow(now: Time) returns (ok: bool)
      modifies this`tokens, this`last, this`lastSeen
      ensures Value() == Allowed(policy, old(Value()), now) && (ok <==> Admits(policy, old(Value()), now))
    {
      lastSeen := now;
      var elapsed := now - last;
      if elapsed > 0 {
        tokens := tokens + elapsed as real / SECOND * policy.rate;
        if tokens > policy.burst as real {
          tokens := policy.burst as real;
        }
        last := now;
      }
      if tokens >= 1.0 {
        tokens := tokens - 1.0;
        return true;
      }
      return false;
    }
  }

  ghost function KeyOf(n: TokenBucketNode?): Option<Key> {
    if n == null then None else Some(n.key)
  }

  /** n is null or the bucket m holds under its key. */
  ghost predicate Held(m: map<Key, TokenBucketNode>, n: TokenBucketNode?) {
    n == null || (n.key in m && m[n.key] == n)
  }

  ghost predicate Keyed(m: map<Key, TokenBucketNode>) {
    forall k {:trigger m[k]} :: k in m ==> m[k].key == k
  }

  /** The links of the buckets in m are those of l. */
  ghost predicate InStep(m: map<Key, TokenBucketNode>, l: Links<Key>)
    reads m.Values`prev, m.Values`next
  {
    && (forall k {:trigger m[k].prev} {:trigger l.prev[k]} :: k in m ==>
          Held(m, m[k].prev) && k in l.prev && l.prev[k] == KeyOf(m[k].prev))
    && (forall k {:trigger m[k].next} {:trigger l.next[k]} :: k in m ==>
          Held(m, m[k].next) && k in l.next && l.next[k] == KeyOf(m[k].next))
  }

  ghost predicate AllListed(m: map<Key, TokenBucketNode>, policy: Policy)
    reads m.Values`inList
  {
    forall k {:trigger m[k].policy} {:trigger m[k].inList} :: k in m ==> m[k].policy == policy && m[k].inList
  }

  /** Head, tail and links spell out q, a list of exactly these keys. */
  ghost predicate Spells(q: seq<Key>, head: Option<Key>, tail: Option<Key>, l: Links<Key>, keys: set<Key>) {
    Chain(q, head, l) && tail == NodeAt(q, |q| - 1) && Members(q) == keys
  }

  ghost function Values(m: map<Key, TokenBucketNode>): map<Key, Bucket>
    reads m.Values`tokens, m.Values`last, m.Values`lastSeen
  {
    map k | k in m :: m[k].Value()
  }

  // ---------------------------------------------------------------- values

  lemma {:induction false} FilterAll(q: seq<Key>, keys: set<Key>)
    requires Members(q) <= keys
    ensures Filter(q, keys) == q
  {
    if q != [] {
      MembersCons(q);
      FilterAll(q[1..], keys);
    }
  }

  lemma {:induction false} FilterTwice(q: seq<Key>, more: set<Key>, fewer: set<Key>)
    requires fewer <= more
    ensures Filter(Filter(q, more), fewer) == Filter(q, fewer)
  {
    if q != [] {
      FilterTwice(q[1..], more, fewer);
      var rest := Filter(q[1..], more);
      assert ([q[0]] + rest)[1..] == rest;
    }
  }

  lemma {:induction false} FilterOut(q: seq<Key>, i: nat, keys: set<Key>)
    requires AllDifferent(q) && i < |q| && Members(q) <= keys
    ensures Filter(q, keys - {q[i]}) == Removed(q, i)
  {
    MembersCons(q);
    assert q[0] !in Members(q[1..]);
    if i == 0 {
      FilterAll(q[1..], keys - {q[0]});
      assert Removed(q, 0) == q[1..];
    } else {
      assert q[1..][i - 1] == q[i] && q[i] in Members(q[1..]);
      FilterOut(q[1..], i - 1, keys);
      assert Removed(q, i) == [q[0]] + Removed(q[1..], i - 1);
    }
  }

  lemma KeepTwice(l: Lim, more: set<Key>, fewer: set<Key>)
    requires fewer <= more
    ensures Keep(Keep(l, more), fewer) == Keep(l, fewer)
  {
    FilterTwice(l.order, more, fewer);
  }

  lemma CutOne(v: Lim, before: Lim, after: Lim, n: nat)
    requires Listed(v) && 0 < n <= |v.order| && before == Keep(v, Newest(v.order, n))
    requires after == Keep(before, Newest(before.order, n - 1))
    ensures after == Keep(v, Newest(v.order, n - 1))
  {
    KeepNewestTwice(v, n, n - 1);
  }

  lemma KeepNewestTwice(v: Lim, a: nat, b: nat)
    requires Listed(v) && b <= a <= |v.order|
    ensures Keep(v, Newest(v.order, a)).order == v.order[..a]
    ensures Keep(Keep(v, Newest(v.order, a)), Newest(v.order[..a], b)) == Keep(v, Newest(v.order, b))
  {
    FilterNewest(v.order, a);
    assert v.order[..a][..b] == v.order[..b];
    assert v.order[..a][..a] == v.order[..a];
    assert v.order[..|v.order|] == v.order;
    assert Newest(v.order[..a], b) == Newest(v.order, b) <= Newest(v.order, a);
    KeepTwice(v, Newest(v.order, a), Newest(v.order, b));
  }

  lemma WithoutLast(v: Lim)
    requires Listed(v) && v.order != []
    ensures var n := |v.order| - 1;
            && Filter(v.order, v.table.Keys - {v.order[n]}) == v.order[..n]
            && Keep(v, v.table.Keys - {v.order[n]}) == Keep(v, Newest(v.order, n))
  {
    var n := |v.order| - 1;
    var last := v.order[n];
    FilterNewest(v.order, n);
    FilterOut(v.order, n, v.table.Keys);
    assert Removed(v.order, n) == v.order[..n];
    FilterKeeps(v.order, Newest(v.order, n));
    FilterKeeps(v.order, v.table.Keys - {last});
    assert v.table.Keys * Newest(v.order, n) == v.table.Keys - {last};
  }

  /** Taking one key out of the links takes it out of the list. */
  lemma UnlinkSpells(q: seq<Key>, head: Option<Key>, tail: Option<Key>, l: Links<Key>, keys: set<Key>, k: Key)
    requires Spells(q, head, tail, l, keys) && k in keys
    ensures k in l.prev && k in l.next
    ensures Spells(Filter(q, keys - {k}), HeadWithout(l, head, k), TailWithout(l, tail, k), Unlinked(l, k), keys - {k})
  {
    assert k in Members(q);
    var i :| 0 <= i < |q| && q[i] == k;
    ChainIsDistinct(q, head, l);
    UnlinkKeepsChain(q, head, l, i);
    UnlinkKeepsTail(q, head, l, i);
    FilterOut(q, i, keys);
    FilterKeeps(q, keys - {k});
    assert Members(Filter(q, keys - {k})) == keys - {k};
  }

  /** The links with a key that is in no list yet. */
  ghost function WithKey(l: Links<Key>, k: Key): Links<Key> {
    Links(l.prev[k := None], l.next[k := None])
  }

  lemma PushSpells(q: seq<Key>, head: Option<Key>, tail: Option<Key>, l: Links<Key>, keys: set<Key>, k: Key)
    requires Spells(q, head, tail, l, keys) && k !in keys
    ensures Spells([k] + q, Some(k), if tail.None? then Some(k) else tail, Pushed(WithKey(l, k), head, k), keys + {k})
  {
    var l' := WithKey(l, k);
    assert forall i :: 0 <= i < |q| ==> q[i] in Members(q);
    assert k !in q;
    ChainFrame(q, head, l, l');
    PushKeepsChain(q, head, l', k);
    assert Members([k] + q) == keys + {k};
  }

  lemma WithKeyInStep(m: map<Key, TokenBucketNode>, l: Links<Key>, tb: TokenBucketNode)
    requires Keyed(m) && InStep(m, l) && tb.key !in m && tb.prev == null && tb.next == null
    ensures Keyed(m[tb.key := tb]) && InStep(m[tb.key := tb], WithKey(l, tb.key))
  {
    var more, l' := m[tb.key := tb], WithKey(l, tb.key);
    forall k | k in more
      ensures Held(more, more[k].prev) && k in l'.prev && l'.prev[k] == KeyOf(more[k].prev)
      ensures Held(more, more[k].next) && k in l'.next && l'.next[k] == KeyOf(more[k].next)
    {
      if k != tb.key {
        assert Held(m, m[k].prev) && k in l.prev && l.prev[k] == KeyOf(m[k].prev);
        assert Held(m, m[k].next) && k in l.next && l.next[k] == KeyOf(m[k].next);
      }
    }
  }

  /** The neighbours of a listed key are listed. */
  lemma SpellsInside(q: seq<Key>, head: Option<Key>, tail: Option<Key>, l: Links<Key>, keys: set<Key>, k: Key)
    requires Spells(q, head, tail, l, keys) && k in keys
    ensures k in l.prev && (l.prev[k].Some? ==> l.prev[k].value in keys)
    ensures k in l.next && (l.next[k].Some? ==> l.next[k].value in keys)
  {
    assert k in Members(q);
    var i :| 0 <= i < |q| && q[i] == k;
    ChainAt(q, head, l, i);
    assert i > 0 ==> q[i - 1] in Members(q);
    assert i + 1 < |q| ==> q[i + 1] in Members(q);
  }

  /** Once unlinked, a key can go: the other buckets point only at each other. */
  lemma StillInStep(m: map<Key, TokenBucketNode>, k: Key, q: seq<Key>, h: Option<Key>, t: Option<Key>, l: Links<Key>)
    requires Keyed(m) && InStep(m, l) && Spells(q, h, t, l, m.Keys - {k})
    ensures InStep(m - {k}, l)
  {
    var fewer := m - {k};
    forall j | j in fewer
      ensures Held(fewer, fewer[j].prev) && j in l.prev && l.prev[j] == KeyOf(fewer[j].prev)
      ensures Held(fewer, fewer[j].next) && j in l.next && l.next[j] == KeyOf(fewer[j].next)
    {
      SpellsInside(q, h, t, l, m.Keys - {k}, j);
      assert Held(m, m[j].prev) && l.prev[j] == KeyOf(m[j].prev);
      assert Held(m, m[j].next) && l.next[j] == KeyOf(m[j].next);
    }
  }

  /** head and tail of the list without k are still in the map without k. */
  lemma EndsStay(m: map<Key, TokenBucketNode>, k: Key, q: seq<Key>, h: TokenBucketNode?, t: TokenBucketNode?, l: Links<Key>)
    requires Held(m, h) && Held(m, t) && Spells(q, KeyOf(h), KeyOf(t), l, m.Keys - {k})
    ensures Held(m - {k}, h) && Held(m - {k}, t)
  {
    if h != null {
      assert q[0] in Members(q);
    }
    if t != null {
      assert q[|q| - 1] in Members(q);
    }
  }

  /** The limiter when a call has found or created its bucket. */
  ghost function Ready(s: Settings, v: Lim, c: Call): Lim {
    if c.key in v.table then v else Inserted(RoomMade(s, v, c), c.key, NewBucket(s.policy, c.create))
  }

  lemma InsertedTwice(n: Lim, k: Key, a: Bucket, b: Bucket)
    ensures Inserted(n, k, a).(table := Inserted(n, k, a).table[k := b]) == Inserted(n, k, b)
  {
    assert n.table[k := a][k := b] == n.table[k := b];
  }

  lemma AllowValue(s: Settings, v: Lim, c: Call)
    ensures var mid := Ready(s, v, c);
            && c.key in mid.table && mid.table[c.key] == BucketFor(s, v.table, c)
            && mid.(table := mid.table[c.key := Allowed(s.policy, mid.table[c.key], c.use)]) == Allow(s, v, c)
  {
    if c.key !in v.table {
      var unused := NewBucket(s.policy, c.create);
      InsertedTwice(RoomMade(s, v, c), c.key, unused, Allowed(s.policy, unused, c.use));
    }
  }

  // ---------------------------------------------------------------- the limiter

  class Table {
    const settings: Settings
    var buckets: map<Key, TokenBucketNode>
    var insertCt: nat
    var head: TokenBucketNode?
    var tail: TokenBucketNode?
    ghost var order: seq<Key>
    ghost var links: Links<Key>

    /** The list, forwards and backwards, is order; it holds the buckets of m. */
    ghost predicate Whole(m: map<Key, TokenBucketNode>)
      reads this`head, this`tail, this`order, this`links, m.Values`prev, m.Values`next, m.Values`inList
    {
      && Keyed(m) && InStep(m, links)
      && AllListed(m, settings.policy)
      && Held(m, head) && Held(m, tail)
      && Spells(order, KeyOf(head), KeyOf(tail), links, m.Keys)
    }

    ghost predicate Valid()
      reads this, buckets.Values`prev, buckets.Values`next, buckets.Values`inList
    {
      Whole(buckets)
    }

    ghost function View(): Lim
      reads this`buckets, this`insertCt, this`order
      reads buckets.Values`tokens, buckets.Values`last, buckets.Values`lastSeen
    {
      Lim(order, Values(buckets), insertCt)
    }

    constructor (settings: Settings)
      ensures this.settings == settings && Valid() && View() == EMPTY
    {
      this.settings := settings;
      buckets, insertCt, head, tail := map[], 0, null, null;
      order, links := [], Links(map[], map[]);
    }

    /** Links the bucket in front. */
    method PushFront(tb: TokenBucketNode, ghost m: map<Key, TokenBucketNode>, ghost l: Links<Key>)
      requires Keyed(m) && InStep(m, l) && tb.key in m && m[tb.key] == tb && Held(m, head) && Held(m, tail)
      modifies this`head, this`tail, m.Values`prev, m.Values`next, m.Values`inList
      ensures head == tb && tail == (if old(tail) == null then tb else old(tail))
      ensures InStep(m, Pushed(l, old(KeyOf(head)), tb.key)) && tb.inList
      ensures forall k :: k in m && k != tb.key ==> m[k].inList == old(m[k].inList)
    {
      tb.prev := null;
      tb.next := head;
      if head != null {
        head.prev := tb;
      }
      head := tb;
      if tail == null {
        tail := tb;
      }
      tb.inList := true;
    }

    /** Routes the links around the bucket, moving head and tail as needed. */
    method Relink(tb: TokenBucketNode, ghost m: map<Key, TokenBucketNode>, ghost l: Links<Key>)
      requires Keyed(m) && InStep(m, l) && tb.key in m && m[tb.key] == tb && Held(m, head) && Held(m, tail)
      requires tb.key in l.prev && tb.key in l.next
      modifies this`head, this`tail, m.Values`prev, m.Values`next
      ensures Held(m, head) && KeyOf(head) == HeadWithout(l, old(KeyOf(head)), tb.key)
      ensures Held(m, tail) && KeyOf(tail) == TailWithout(l, old(KeyOf(tail)), tb.key)
      ensures InStep(m, Unlinked(l, tb.key))
    {
      assert Held(m, m[tb.key].prev) && l.prev[tb.key] == KeyOf(tb.prev);
      assert Held(m, m[tb.key].next) && l.next[tb.key] == KeyOf(tb.next);
      var p, n := tb.prev, tb.next;
      if p != null {
        p.next := n;
      } else {
        head := n;
      }
      if n != null {
        n.prev := p;
      } else {
        tail := p;
      }
      tb.prev, tb.next := null, null;
    }

    /** Takes the bucket out of the list; a second time does nothing. */
    method Unlink(tb: TokenBucketNode, ghost m: map<Key, TokenBucketNode>, ghost l: Links<Key>)
      requires Keyed(m) && InStep(m, l) && tb.key in m && m[tb.key] == tb && Held(m, head) && Held(m, tail)
      modifies this`head, this`tail, m.Values`prev, m.Values`next, m.Values`inList
      ensures Held(m, head) && Held(m, tail) && !tb.inList && tb.key in l.prev && tb.key in l.next
      ensures forall k :: k in m && k != tb.key ==> m[k].inList == old(m[k].inList)
      ensures !old(tb.inList) ==> head == old(head) && tail == old(tail) && InStep(m, l)
      ensures old(tb.inList) ==> InStep(m, Unlinked(l, tb.key))
                                 && KeyOf(head) == HeadWithout(l, old(KeyOf(head)), tb.key)
                                 && KeyOf(tail) == TailWithout(l, old(KeyOf(tail)), tb.key)
    {
      assert Held(m, m[tb.key].prev) && Held(m, m[tb.key].next);
      if !tb.inList {
        return;
      }
      Relink(tb, m, l);
      tb.inList := false;
    }

    /** Takes the key out of the list; it is still in the map. */
    method Detach(k: Key)
      requires Valid() && k in buckets
      modifies this`head, this`tail, this`order, this`links
      modifies buckets.Values`prev, buckets.Values`next, buckets.Values`inList
      ensures Whole(buckets - {k}) && order == Filter(old(order), buckets.Keys - {k}) && Values(buckets) == old(Values(buckets))
    {
      Unchain(k);
    }

    method Unchain(k: Key)
      requires Valid() && k in buckets
      modifies this`head, this`tail, this`order, this`links
      modifies buckets.Values`prev, buckets.Values`next, buckets.Values`inList
      ensures Whole(buckets - {k}) && order == Filter(old(order), buckets.Keys - {k})
    {
      ghost var m, l, q := buckets, links, order;
      UnlinkSpells(q, KeyOf(head), KeyOf(tail), l, m.Keys, k);
      assert m[k].key == k && m[k].inList;
      Unlink(buckets[k], m, l);
      order, links := Filter(q, m.Keys - {k}), Unlinked(l, k);
      StillInStep(m, k, order, KeyOf(head), KeyOf(tail), links);
      EndsStay(m, k, order, head, tail, links);
      assert (m - {k}).Keys == m.Keys - {k};
    }

    twostate lemma DropView(k: Key)
      requires buckets == old(buckets) - {k} && order == Filter(old(order), old(buckets).Keys - {k}) && insertCt == old(insertCt)
      requires Values(old(buckets)) == old(Values(buckets))
      ensures View() == Keep(old(View()), old(buckets).Keys - {k})
    {
      assert Values(buckets) == map j | j in Values(old(buckets)) && j in old(buckets).Keys - {k} :: Values(old(buckets))[j];
    }

    /** unlinkLocked and delete, as both callers do them. */
    method Drop(k: Key)
      requires Valid() && k in buckets
      modifies this`head, this`tail, this`buckets, this`order, this`links
      modifies buckets.Values`prev, buckets.Values`next, buckets.Values`inList
      ensures Valid() && buckets == old(buckets) - {k} && View() == Keep(old(View()), old(buckets).Keys - {k})
    {
      Detach(k);
      buckets := buckets - {k};
      DropView(k);
    }

    lemma ViewListed()
      requires Valid()
      ensures Listed(View()) && |order| == |buckets| && View().table.Keys == buckets.Keys
    {
      ChainIsDistinct(order, KeyOf(head), links);
      assert Values(buckets).Keys == buckets.Keys;
      ListedCount(View());
      assert |buckets| == |buckets.Keys| && |View().table| == |View().table.Keys|;
    }

    /** One visit of the sweep. v is the limiter before it. */
    method DropIdle(k: Key, cutoff: Time, ghost v: Lim)
      requires Valid() && k in buckets && View() == Keep(v, buckets.Keys) && k in v.table
      modifies this`head, this`tail, this`buckets, this`order, this`links
      modifies buckets.Values`prev, buckets.Values`next, buckets.Values`inList
      ensures Valid() && View() == Keep(v, buckets.Keys)
      ensures buckets == if v.table[k].lastSeen < cutoff then old(buckets) - {k} else old(buckets)
    {
      assert View().table[k] == v.table[k];
      if buckets[k].lastSeen < cutoff {
        KeepTwice(v, buckets.Keys, buckets.Keys - {k});
        Drop(k);
        assert buckets.Keys == old(buckets).Keys - {k};
      }
    }

    /** What the sweep has left after visiting all but `todo`. */
    ghost predicate Visited(v: Lim, keys: set<Key>, todo: set<Key>, cutoff: Time) {
      && todo <= keys <= v.table.Keys
      && (forall k {:trigger v.table[k]} {:trigger k in keys} :: k in v.table ==> (k in keys <==> k in todo || v.table[k].lastSeen >= cutoff))
    }

    lemma VisitOne(v: Lim, m: map<Key, TokenBucketNode>, todo: set<Key>, cutoff: Time, k: Key)
      requires Visited(v, m.Keys, todo, cutoff) && k in todo
      ensures var fewer := if v.table[k].lastSeen < cutoff then m - {k} else m;
              Visited(v, fewer.Keys, todo - {k}, cutoff) && fewer.Values <= m.Values
    {
    }

    lemma VisitedOnce(v: Lim, keys: set<Key>, others: set<Key>, cutoff: Time)
      requires Visited(v, keys, {}, cutoff) && Visited(v, others, {}, cutoff)
      ensures keys == others
    {
    }

    lemma FreshIsVisited(v: Lim, cutoff: Time)
      ensures Visited(v, Fresh(v, cutoff), {}, cutoff)
    {
    }

    lemma NoneVisited(cutoff: Time)
      requires Valid()
      ensures View() == Keep(View(), buckets.Keys) && Visited(View(), buckets.Keys, buckets.Keys, cutoff)
    {
      ViewListed();
      FilterAll(order, buckets.Keys);
    }

    /** Drops every bucket not seen for longer than the TTL, visiting them in whatever
        order the map yields them. v is the limiter before. */
    method SweepLocked(now: Time, ghost v: Lim)
      requires Valid() && v == View()
      modifies this`head, this`tail, this`buckets, this`order, this`links
      modifies buckets.Values`prev, buckets.Values`next, buckets.Values`inList
      ensures Valid() && buckets.Values <= old(buckets).Values
      ensures View() == Keep(v, buckets.Keys) && Visited(v, buckets.Keys, {}, now - settings.ttl)
    {
      var cutoff := now - settings.ttl;
      ghost var m := buckets;
      NoneVisited(cutoff);
      var todo := buckets.Keys;
      while todo != {}
        invariant Valid() && buckets.Values <= m.Values
        invariant View() == Keep(v, buckets.Keys) && Visited(v, buckets.Keys, todo, cutoff)
        decreases todo
      {
        var k :| k in todo;
        VisitOne(v, buckets, todo, cutoff, k);
        DropIdle(k, cutoff, v);
        todo := todo - {k};
      }
    }

    lemma OldestIsLast()
      requires Valid()
      ensures tail == null <==> order == []
      ensures tail != null ==> tail.key == order[|order| - 1] && tail.key in buckets
      ensures tail != null ==> Keep(View(), buckets.Keys - {tail.key}) == Keep(View(), Newest(order, |order| - 1))
      ensures tail != null ==> |Filter(order, buckets.Keys - {tail.key})| == |order| - 1
    {
      ViewListed();
      if tail != null {
        WithoutLast(View());
      }
    }

    /** Drops the oldest insertion, if there is one. */
    method EvictOldestLocked() returns (evicted: bool)
      requires Valid()
      modifies this`head, this`tail, this`buckets, this`order, this`links
      modifies buckets.Values`prev, buckets.Values`next, buckets.Values`inList
      ensures Valid() && buckets.Values <= old(buckets).Values
      ensures evicted <==> old(order) != []
      ensures evicted ==> |order| == |old(order)| - 1 && View() == Keep(old(View()), Newest(old(order), |order|))
      ensures !evicted ==> View() == old(View())
    {
      OldestIsLast();
      if tail == null {
        return false;
      }
      Drop(tail.key);
      return true;
    }

    /** The newest of v are left. */
    ghost predicate NewestOf(v: Lim)
      reads this`buckets, this`insertCt, this`order
      reads buckets.Values`tokens, buckets.Values`last, buckets.Values`lastSeen
    {
      Listed(v) && |order| == |buckets| && |order| <= |v.order| && View() == Keep(v, Newest(v.order, |order|))
    }

    lemma NothingCut()
      requires Valid()
      ensures NewestOf(View())
    {
      ViewListed();
      FilterNewest(order, |order|);
      assert Newest(order, |order|) == Members(order);
    }

    method EvictOne(ghost v: Lim) returns (evicted: bool)
      requires Valid() && NewestOf(v) && order != []
      modifies this`head, this`tail, this`buckets, this`order, this`links
      modifies buckets.Values`prev, buckets.Values`next, buckets.Values`inList
      ensures Valid() && NewestOf(v) && buckets.Values <= old(buckets).Values
      ensures evicted && |buckets| == old(|buckets|) - 1
    {
      ghost var before := View();
      evicted := EvictOldestLocked();
      CutOne(v, before, View(), |before.order|);
      ViewListed();
    }

    /** Evicts from the old end until there is room for one more. */
    method EvictToCap(ghost v: Lim)
      requires Valid() && settings.maxBuckets > 0 && |buckets| >= settings.maxBuckets && v == View()
      modifies this`head, this`tail, this`buckets, this`order, this`links
      modifies buckets.Values`prev, buckets.Values`next, buckets.Values`inList
      ensures Valid() && buckets.Values <= old(buckets).Values
      ensures View() == Keep(v, Newest(v.order, settings.maxBuckets - 1))
    {
      NothingCut();
      var more := true;
      while more && |buckets| >= settings.maxBuckets
        invariant Valid() && buckets.Values <= old(buckets).Values
        invariant NewestOf(v) && more && settings.maxBuckets - 1 <= |buckets|
        decreases |buckets|
      {
        more := EvictOne(v);
      }
    }

    /** The state between publishing a bucket and linking it. */
    ghost predicate Published(m: map<Key, TokenBucketNode>, tb: TokenBucketNode)
      reads this`head, this`tail, this`order, this`links, m.Values`prev, m.Values`next, m.Values`inList
    {
      && tb.key in m && m[tb.key] == tb && tb.policy == settings.policy
      && Keyed(m) && InStep(m, WithKey(links, tb.key)) && Held(m, head) && Held(m, tail)
      && (forall k {:trigger m[k].policy} {:trigger m[k].inList} :: k in m && k != tb.key ==> m[k].policy == settings.policy && m[k].inList)
      && Spells(order, KeyOf(head), KeyOf(tail), links, m.Keys - {tb.key})
    }

    lemma Publish(m: map<Key, TokenBucketNode>, tb: TokenBucketNode)
      requires Whole(m) && tb.key !in m && tb.policy == settings.policy && tb.prev == null && tb.next == null
      ensures Published(m[tb.key := tb], tb)
    {
      WithKeyInStep(m, links, tb);
      assert m[tb.key := tb].Keys - {tb.key} == m.Keys;
    }

    method LinkFront(tb: TokenBucketNode)
      requires Published(buckets, tb)
      modifies this`head, this`tail, this`order, this`links
      modifies buckets.Values`prev, buckets.Values`next, buckets.Values`inList
      ensures Valid() && order == [tb.key] + old(order)
    {
      ghost var l := WithKey(links, tb.key);
      ghost var keys := buckets.Keys - {tb.key};
      PushSpells(order, KeyOf(head), KeyOf(tail), links, keys, tb.key);
      assert keys + {tb.key} == buckets.Keys;
      ghost var h := KeyOf(head);
      PushFront(tb, buckets, l);
      assert AllListed(buckets, settings.policy);
      order, links := [tb.key] + order, Pushed(l, h, tb.key);
    }

    /** A new bucket, published in the map and linked in front. */
    method Insert(tb: TokenBucketNode)
      requires Valid() && tb.key !in buckets && tb !in buckets.Values
      requires tb.policy == settings.policy && tb.prev == null && tb.next == null
      modifies this`head, this`tail, this`buckets, this`order, this`links
      modifies buckets.Values`prev, buckets.Values`next, buckets.Values`inList, tb`prev, tb`next, tb`inList
      ensures Valid() && buckets == old(buckets)[tb.key := tb] && order == [tb.key] + old(order)
    {
      Publish(buckets, tb);
      buckets := buckets[tb.key := tb];
      LinkFront(tb);
    }

    twostate lemma InsertView(tb: TokenBucketNode)
      requires buckets == old(buckets)[tb.key := tb] && order == [tb.key] + old(order) && insertCt == old(insertCt)
      requires Values(old(buckets)) == old(Values(buckets))
      ensures View() == Inserted(old(View()), tb.key, tb.Value())
    {
      assert Values(buckets) == Values(old(buckets))[tb.key := tb.Value()];
    }

    lemma SameSize()
      ensures |View().table| == |buckets|
    {
      assert Values(buckets).Keys == buckets.Keys;
      assert |Values(buckets)| == |Values(buckets).Keys| && |buckets| == |buckets.Keys|;
    }

    /** A sweep if one is due; seen are the keys it has to leave. */
    method SweepIf(due: bool, now: Time, ghost v: Lim, ghost seen: set<Key>, ghost target: Lim)
      requires Valid() && v == View() && Visited(v, seen, {}, now - settings.ttl)
      requires target == if due then Keep(v, seen) else v
      modifies this`head, this`tail, this`buckets, this`order, this`links
      modifies buckets.Values`prev, buckets.Values`next, buckets.Values`inList
      ensures Valid() && View() == target && buckets.Values <= old(buckets).Values
    {
      if due {
        SweepLocked(now, v);
        VisitedOnce(v, buckets.Keys, seen, now - settings.ttl);
      }
    }

    /** The sweep due every SWEEP_EVERY insertions. */
    method CountInsertion(c: Call, ghost v: Lim)
      requires Valid() && v == View()
      modifies this`head, this`tail, this`buckets, this`order, this`links, this`insertCt
      modifies buckets.Values`prev, buckets.Values`next, buckets.Values`inList
      ensures Valid() && View() == SweptByCount(settings, v, c) && buckets.Values <= old(buckets).Values
    {
      insertCt := insertCt + 1;
      var due := settings.ttl > 0 && insertCt % SWEEP_EVERY == 0;
      ghost var counted := v.(insertCt := v.insertCt + 1);
      FreshIsVisited(counted, c.sweep - settings.ttl);
      SweepIf(due, c.sweep, counted, Fresh(counted, c.sweep - settings.ttl), SweptByCount(settings, v, c));
    }

    /** At the cap, a sweep before anything is evicted. */
    method SweepAtCap(c: Call, ghost v: Lim)
      requires Valid() && View() == SweptByCount(settings, v, c)
      modifies this`head, this`tail, this`buckets, this`order, this`links
      modifies buckets.Values`prev, buckets.Values`next, buckets.Values`inList
      ensures Valid() && View() == SweptByCap(settings, v, c) && buckets.Values <= old(buckets).Values
    {
      SameSize();
      var due := settings.maxBuckets > 0 && |buckets| >= settings.maxBuckets && settings.ttl > 0;
      ghost var counted := SweptByCount(settings, v, c);
      FreshIsVisited(counted, c.cap - settings.ttl);
      SweepIf(due, c.cap, counted, Fresh(counted, c.cap - settings.ttl), SweptByCap(settings, v, c));
    }

    method EvictIf(due: bool, ghost v: Lim, ghost target: Lim)
      requires Valid() && v == View() && (due ==> |buckets| >= settings.maxBuckets > 0)
      requires target == if due then Keep(v, Newest(v.order, settings.maxBuckets - 1)) else v
      modifies this`head, this`tail, this`buckets, this`order, this`links
      modifies buckets.Values`prev, buckets.Values`next, buckets.Values`inList
      ensures Valid() && View() == target && buckets.Values <= old(buckets).Values
    {
      if due {
        EvictToCap(v);
      }
    }

    method EvictAtCap(c: Call, ghost v: Lim)
      requires Valid() && View() == SweptByCap(settings, v, c)
      modifies this`head, this`tail, this`buckets, this`order, this`links
      modifies buckets.Values`prev, buckets.Values`next, buckets.Values`inList
      ensures Valid() && View() == RoomMade(settings, v, c) && buckets.Values <= old(buckets).Values
    {
      SameSize();
      var due := settings.maxBuckets > 0 && |buckets| >= settings.maxBuckets;
      EvictIf(due, SweptByCap(settings, v, c), RoomMade(settings, v, c));
    }

    /** Makes room for a new key. */
    method MakeRoom(c: Call, ghost v: Lim)
      requires Valid() && v == View()
      modifies this`head, this`tail, this`buckets, this`order, this`links, this`insertCt
      modifies buckets.Values`prev, buckets.Values`next, buckets.Values`inList
      ensures Valid() && View() == RoomMade(settings, v, c) && buckets.Values <= old(buckets).Values
    {
      CountInsertion(c, v);
      SweepAtCap(c, v);
      EvictAtCap(c, v);
    }

    method Add(tb: TokenBucketNode, ghost v: Lim)
      requires Valid() && v == View() && tb.key !in buckets && tb !in buckets.Values
      requires tb.policy == settings.policy && tb.prev == null && tb.next == null
      modifies this`head, this`tail, this`buckets, this`order, this`links
      modifies buckets.Values`prev, buckets.Values`next, buckets.Values`inList, tb`prev, tb`next, tb`inList
      ensures Valid() && buckets == old(buckets)[tb.key := tb]
      ensures View() == Inserted(v, tb.key, tb.Value())
    {
      Insert(tb);
      InsertView(tb);
    }

    /** A new, full bucket for the key. */
    method Create(k: Key, now: Time, ghost v: Lim)
      requires Valid() && v == View() && k !in buckets
      modifies this`head, this`tail, this`buckets, this`order, this`links
      modifies buckets.Values`prev, buckets.Values`next, buckets.Values`inList
      ensures Valid() && k in buckets && fresh(buckets[k])
      ensures View() == Inserted(v, k, NewBucket(settings.policy, now))
    {
      var tb := new TokenBucketNode(settings.policy, k, now);
      Add(tb, v);
    }

    twostate lemma UseView(k: Key)
      requires buckets == old(buckets) && order == old(order) && insertCt == old(insertCt) && k in buckets
      requires forall j :: j in buckets && j != k ==> buckets[j].Value() == old(buckets[j].Value())
      ensures View() == old(View()).(table := old(View()).table[k := buckets[k].Value()])
    {
    }

    /** One request against the key's bucket. */
    method Use(tb: TokenBucketNode, now: Time, ghost v: Lim) returns (ok: bool)
      requires Valid() && v == View() && tb.key in buckets && buckets[tb.key] == tb
      modifies tb`tokens, tb`last, tb`lastSeen
      ensures Valid() && View() == v.(table := v.table[tb.key := Allowed(settings.policy, v.table[tb.key], now)])
      ensures ok <==> Admits(settings.policy, v.table[tb.key], now)
    {
      assert buckets[tb.key].policy == settings.policy;
      ok := tb.Allow(now);
      UseView(tb.key);
    }

    lemma KeyIsNew(v: Lim)
      requires v == View()
      ensures v.table.Keys == buckets.Keys
    {
    }

    lemma NotInRoom(v: Lim, c: Call)
      requires View() == RoomMade(settings, v, c) && c.key !in v.table
      ensures c.key !in buckets
    {
      RoomIsOld(settings, v, c);
      assert View().table.Keys == buckets.Keys;
    }

    /** The cold path up to the new bucket's first use. */
    method Admit(c: Call, ghost v: Lim)
      requires Valid() && v == View() && c.key !in buckets
      modifies this, buckets.Values`prev, buckets.Values`next, buckets.Values`inList
      ensures Valid() && c.key in buckets && fresh(buckets[c.key])
      ensures View() == Ready(settings, v, c)
    {
      KeyIsNew(v);
      ghost var room, target := RoomMade(settings, v, c), Ready(settings, v, c);
      MakeRoom(c, v);
      NotInRoom(v, c);
      Create(c.key, c.create, room);
      assert View() == target;
    }

    /** One request: the answer and the new state are those of the value. */
    method Allow(c: Call) returns (ok: bool)
      requires Valid()
      modifies this, buckets.Values
      ensures Valid() && View() == Limiter.Allow(settings, old(View()), c)
      ensures ok <==> Answer(settings, old(View()).table, c)
    {
      ghost var v, mid := View(), Ready(settings, View(), c);
      assert v.table.Keys == buckets.Keys;
      AllowValue(settings, v, c);
      if c.key !in buckets {
        Admit(c, v);
      }
      assert buckets[c.key].key == c.key;
      ok := Use(buckets[c.key], c.use, mid);
    }
  }
}
