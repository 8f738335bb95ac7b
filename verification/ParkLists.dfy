/** The parked-writer lists as values: everything fcOutMu guards about them in
    one snapshot, and the proof that linking and unlinking a waiter is parking
    and unparking it in the queue of ParkQueue. */
module ParkLists {
  import opened Windows
  import opened Chains
  import opened ParkQueue

  /** of, need and queued are the ss, needConn and queued fields of every waiter;
      heads the fcHead of every stream. */
  datatype Lists<W, S> = Lists(
    head: Option<W>, conn: Links<W>,
    heads: map<S, Option<W>>, str: Links<W>,
    of: map<W, S>, need: map<W, bool>, queued: map<W, bool>,
    blocked: int)

  function Names<W, S>(q: seq<Entry<W, S>>): (r: seq<W>)
    ensures |r| == |q| && forall i :: 0 <= i < |q| ==> r[i] == q[i].writer
  {
    seq(|q|, i requires 0 <= i < |q| => q[i].writer)
  }

  ghost predicate Known<W, S>(ls: Lists<W, S>, w: W) {
    && w in ls.of && w in ls.need && w in ls.queued && ls.of[w] in ls.heads
    && w in ls.conn.prev && w in ls.conn.next && w in ls.str.prev && w in ls.str.next
  }

  ghost predicate EntryOf<W, S>(ls: Lists<W, S>, e: Entry<W, S>) {
    Known(ls, e.writer) && ls.queued[e.writer] && ls.of[e.writer] == e.stream && ls.need[e.writer] == e.needConn
  }

  ghost predicate Flagged<W, S>(ls: Lists<W, S>, q: seq<Entry<W, S>>) {
    && (forall i :: 0 <= i < |q| ==> EntryOf(ls, q[i]))
    && (forall w {:trigger Queued(q, w)} | w in ls.queued :: ls.queued[w] ==> Queued(q, w))
  }

  ghost predicate StreamListed<W, S>(ls: Lists<W, S>, q: seq<Entry<W, S>>, s: S) {
    s in ls.heads && Chain(Names(OnStream(q, s)), ls.heads[s], ls.str)
  }

  /** Flags, both list families and the counter all describe the queue q; each
      stream's list is q restricted to that stream. */
  ghost predicate Describes<W, S>(ls: Lists<W, S>, q: seq<Entry<W, S>>) {
    && Flagged(ls, q)
    && Chain(Names(q), ls.head, ls.conn)
    && (forall s {:trigger StreamListed(ls, q, s)} | s in ls.heads :: StreamListed(ls, q, s))
    && ls.blocked == CountNeedConn(q)
  }

  function Linked<W(==), S(==)>(ls: Lists<W, S>, w: W): Lists<W, S>
    requires w in ls.of && w in ls.need && w in ls.queued && ls.of[w] in ls.heads
  {
    var s := ls.of[w];
    if ls.queued[w] then ls
    else ls.(
      queued := ls.queued[w := true],
      head := Some(w), conn := Pushed(ls.conn, ls.head, w),
      heads := ls.heads[s := Some(w)], str := Pushed(ls.str, ls.heads[s], w),
      blocked := ls.blocked + (if ls.need[w] then 1 else 0))
  }

  function Parted<W(==), S(==)>(ls: Lists<W, S>, w: W): Lists<W, S>
    requires w in ls.of && w in ls.need && w in ls.queued && ls.of[w] in ls.heads
    requires w in ls.conn.prev && w in ls.conn.next && w in ls.str.prev && w in ls.str.next
  {
    var s := ls.of[w];
    if !ls.queued[w] then ls
    else ls.(
      queued := ls.queued[w := false],
      head := HeadWithout(ls.conn, ls.head, w), conn := Unlinked(ls.conn, w),
      heads := ls.heads[s := HeadWithout(ls.str, ls.heads[s], w)], str := Unlinked(ls.str, w),
      blocked := ls.blocked - (if ls.need[w] then 1 else 0))
  }

  // ---------------------------------------------------------------- queue facts

  lemma QueueIsDistinct<W, S>(q: seq<Entry<W, S>>, head: Option<W>, l: Links<W>)
    requires Chain(Names(q), head, l)
    ensures Distinct(q)
  {
    ChainIsDistinct(Names(q), head, l);
    PairsDiffer(Names(q));
    forall i, j | 0 <= i < j < |q| ensures q[i].writer != q[j].writer {
      assert Names(q)[i] != Names(q)[j];
    }
  }

  /** A stream's list holds entries of the queue. */
  lemma {:induction false} OnStreamAt<W, S>(q: seq<Entry<W, S>>, s: S, i: nat) returns (k: nat)
    requires i < |OnStream(q, s)|
    ensures k < |q| && q[k] == OnStream(q, s)[i] && q[k].stream == s
  {
    if q[0].stream == s && i == 0 {
      k := 0;
    } else {
      var j := OnStreamAt(q[1..], s, if q[0].stream == s then i - 1 else i);
      k := j + 1;
    }
  }

  /** Every entry of the queue is in its stream's list. */
  lemma {:induction false} AtOnStream<W, S>(q: seq<Entry<W, S>>, k: nat) returns (i: nat)
    requires k < |q|
    ensures i < |OnStream(q, q[k].stream)| && OnStream(q, q[k].stream)[i] == q[k]
  {
    if k == 0 {
      i := 0;
    } else {
      var j := AtOnStream(q[1..], k - 1);
      i := if q[0].stream == q[k].stream then j + 1 else j;
    }
  }

  /** The head of the queue is the head of its stream's list. */
  lemma FirstOnStream<W, S>(q: seq<Entry<W, S>>, i: nat)
    requires q != [] && Distinct(q) && i < |OnStream(q, q[0].stream)| && OnStream(q, q[0].stream)[i] == q[0]
    ensures i == 0
  {
    if i > 0 {
      var j := OnStreamAt(q[1..], q[0].stream, i - 1);
      assert false;
    }
  }

  lemma {:induction false} OnStreamRemoved<W, S>(q: seq<Entry<W, S>>, k: nat, i: nat, s: S)
    requires k < |q| && Distinct(q)
    requires q[k].stream == s ==> i < |OnStream(q, s)| && OnStream(q, s)[i] == q[k]
    ensures OnStream(Removed(q, k), s) ==
      if q[k].stream == s then Removed(OnStream(q, s), i) else OnStream(q, s)
  {
    if k == 0 {
      assert Removed(q, 0) == q[1..];
      if q[0].stream == s {
        FirstOnStream(q, i);
        assert OnStream(q, s)[1..] == OnStream(q[1..], s);
        assert Removed(OnStream(q, s), 0) == OnStream(q, s)[1..];
      }
    } else {
      var first := if q[0].stream == s then [q[0]] else [];
      assert Removed(q, k)[0] == q[0] && Removed(q, k)[1..] == Removed(q[1..], k - 1);
      assert OnStream(q, s) == first + OnStream(q[1..], s);
      assert q[k].stream == s ==> |first| <= i;
      var d := if |first| <= i then i - |first| else i;
      OnStreamRemoved(q[1..], k - 1, d, s);
      assert q[k].stream == s ==> Removed(OnStream(q, s), i) == first + Removed(OnStream(q[1..], s), d);
    }
  }

  lemma {:induction false} CountRemoved<W, S>(q: seq<Entry<W, S>>, k: nat)
    requires k < |q|
    ensures CountNeedConn(Removed(q, k)) == CountNeedConn(q) - (if q[k].needConn then 1 else 0)
  {
    if k == 0 {
      assert Removed(q, 0) == q[1..];
    } else {
      assert Removed(q, k)[0] == q[0] && Removed(q, k)[1..] == Removed(q[1..], k - 1);
      CountRemoved(q[1..], k - 1);
    }
  }

  lemma {:induction false} DropNone<W, S>(q: seq<Entry<W, S>>, ws: set<W>)
    requires forall i :: 0 <= i < |q| ==> q[i].writer !in ws
    ensures Drop(q, ws) == q
  {
    if q != [] {
      DropNone(q[1..], ws);
    }
  }

  lemma {:induction false} DropOne<W, S>(q: seq<Entry<W, S>>, k: nat)
    requires k < |q| && Distinct(q)
    ensures Drop(q, {q[k].writer}) == Removed(q, k)
  {
    if k == 0 {
      assert Removed(q, 0) == q[1..];
      DropNone(q[1..], {q[0].writer});
    } else {
      assert q[0].writer != q[k].writer;
      assert Removed(q, k) == [q[0]] + Removed(q[1..], k - 1);
      DropOne(q[1..], k - 1);
    }
  }

  // ---------------------------------------------------------------- sample

  /** A waiter records why it is about to park. */
  function Resampled<W(==), S>(ls: Lists<W, S>, w: W, needConn: bool): Lists<W, S> {
    ls.(need := ls.need[w := needConn])
  }

  /** Nobody in the queue changes its reason, so all still describe that queue. */
  lemma ResampleKeeps<W, S>(ls: Lists<W, S>, q: seq<Entry<W, S>>, w: W, needConn: bool)
    requires Describes(ls, q) && Known(ls, w) && !ls.queued[w]
    ensures Describes(Resampled(ls, w, needConn), q)
  {
    var ls' := Resampled(ls, w, needConn);
    forall i | 0 <= i < |q| ensures EntryOf(ls', q[i]) {
      assert EntryOf(ls, q[i]);
    }
    forall v | v in ls'.queued && ls'.queued[v] ensures Queued(q, v) {
      assert v in ls.queued;
    }
    forall s | s in ls'.heads ensures StreamListed(ls', q, s) {
      assert StreamListed(ls, q, s);
    }
  }

  // ---------------------------------------------------------------- link = park

  lemma LinkKeepsFlags<W, S>(ls: Lists<W, S>, q: seq<Entry<W, S>>, w: W)
    requires Flagged(ls, q) && Known(ls, w) && !ls.queued[w]
    ensures !Queued(q, w)
    ensures Flagged(Linked(ls, w), [Entry(w, ls.of[w], ls.need[w])] + q)
  {
    forall i | 0 <= i < |q| ensures q[i].writer != w {
      assert EntryOf(ls, q[i]);
    }
    var r, ls' := [Entry(w, ls.of[w], ls.need[w])] + q, Linked(ls, w);
    forall v | v in ls'.queued && ls'.queued[v] ensures Queued(r, v) {
      if v == w {
        assert r[0].writer == v;
      } else {
        assert Queued(q, v);
        var i :| 0 <= i < |q| && q[i].writer == v;
        assert r[i + 1].writer == v;
      }
    }
    forall i | 0 <= i < |r| ensures EntryOf(ls', r[i]) {
      if i > 0 {
        assert EntryOf(ls, q[i - 1]);
      }
    }
  }

  lemma LinkKeepsConn<W, S>(ls: Lists<W, S>, q: seq<Entry<W, S>>, w: W)
    requires Known(ls, w) && !ls.queued[w] && !Queued(q, w) && Chain(Names(q), ls.head, ls.conn) && ls.blocked == CountNeedConn(q)
    ensures var r, ls' := [Entry(w, ls.of[w], ls.need[w])] + q, Linked(ls, w);
      Chain(Names(r), ls'.head, ls'.conn) && ls'.blocked == CountNeedConn(r)
  {
    var r := [Entry(w, ls.of[w], ls.need[w])] + q;
    assert r[1..] == q;
    assert w !in Names(q);
    assert Names(r) == [w] + Names(q);
    PushKeepsChain(Names(q), ls.head, ls.conn, w);
  }

  lemma LinkKeepsStreams<W, S>(ls: Lists<W, S>, q: seq<Entry<W, S>>, w: W, s: S)
    requires Describes(ls, q) && Known(ls, w) && !ls.queued[w] && !Queued(q, w) && s in ls.heads
    ensures StreamListed(Linked(ls, w), [Entry(w, ls.of[w], ls.need[w])] + q, s)
  {
    assert StreamListed(ls, q, s) && StreamListed(ls, q, ls.of[w]);
    if s == ls.of[w] {
      LinkKeepsOwnStream(ls, q, w);
    } else {
      LinkKeepsOtherStream(ls, q, w, s);
    }
  }

  lemma LinkIsPark<W, S>(ls: Lists<W, S>, q: seq<Entry<W, S>>, w: W)
    requires Describes(ls, q) && Known(ls, w)
    ensures Describes(Linked(ls, w), Park(q, Entry(w, ls.of[w], ls.need[w])))
  {
    var r, ls' := [Entry(w, ls.of[w], ls.need[w])] + q, Linked(ls, w);
    if ls.queued[w] {
      assert Queued(q, w);
    } else {
      LinkKeepsFlags(ls, q, w);
      LinkKeepsConn(ls, q, w);
      forall s | s in ls'.heads ensures StreamListed(ls', r, s) {
        LinkKeepsStreams(ls, q, w, s);
      }
    }
  }

  lemma NotOnStream<W, S>(q: seq<Entry<W, S>>, s: S, w: W)
    requires !Queued(q, w)
    ensures w !in Names(OnStream(q, s))
  {
    var own := OnStream(q, s);
    forall i | 0 <= i < |own| ensures own[i].writer != w {
      var k := OnStreamAt(q, s, i);
    }
  }

  lemma LinkKeepsOwnStream<W, S>(ls: Lists<W, S>, q: seq<Entry<W, S>>, w: W)
    requires Known(ls, w) && !ls.queued[w] && !Queued(q, w) && StreamListed(ls, q, ls.of[w])
    ensures StreamListed(Linked(ls, w), [Entry(w, ls.of[w], ls.need[w])] + q, ls.of[w])
  {
    var e, s := Entry(w, ls.of[w], ls.need[w]), ls.of[w];
    var own := OnStream(q, s);
    NotOnStream(q, s, w);
    assert ([e] + q)[1..] == q;
    assert Names([e] + own) == [w] + Names(own);
    PushKeepsChain(Names(own), ls.heads[s], ls.str, w);
  }

  lemma LinkKeepsOtherStream<W, S>(ls: Lists<W, S>, q: seq<Entry<W, S>>, w: W, s: S)
    requires Known(ls, w) && !ls.queued[w] && !Queued(q, w) && s != ls.of[w]
    requires Flagged(ls, q) && StreamListed(ls, q, ls.of[w]) && StreamListed(ls, q, s)
    ensures StreamListed(Linked(ls, w), [Entry(w, ls.of[w], ls.need[w])] + q, s)
  {
    var e := Entry(w, ls.of[w], ls.need[w]);
    var own, other := Names(OnStream(q, s)), Names(OnStream(q, ls.of[w]));
    assert ([e] + q)[1..] == q && OnStream([e] + q, s) == OnStream(q, s);
    NotOnStream(q, s, w);
    StreamsShareNoWaiter(ls, q, s, ls.of[w]);
    assert forall i :: 0 <= i < |own| ==> own[i] != w && (other != [] ==> own[i] != other[0]);
    assert ls.heads[ls.of[w]] == NodeAt(other, 0);
    ChainFrame(own, ls.heads[s], ls.str, Pushed(ls.str, ls.heads[ls.of[w]], w));
  }

  // ---------------------------------------------------------------- part = unpark

  lemma PartIsUnpark<W, S>(ls: Lists<W, S>, q: seq<Entry<W, S>>, w: W)
    requires Describes(ls, q) && Known(ls, w)
    ensures Describes(Parted(ls, w), Drop(q, {w}))
  {
    QueueIsDistinct(q, ls.head, ls.conn);
    if ls.queued[w] {
      assert Queued(q, w);
      var k :| 0 <= k < |q| && q[k].writer == w;
      DropOne(q, k);
      PartIsRemoval(ls, q, k);
    } else {
      forall i | 0 <= i < |q| ensures q[i].writer !in {w} {
        assert EntryOf(ls, q[i]);
      }
      DropNone(q, {w});
    }
  }

  lemma PartKeepsFlags<W, S>(ls: Lists<W, S>, q: seq<Entry<W, S>>, k: nat)
    requires Flagged(ls, q) && Distinct(q) && k < |q| && EntryOf(ls, q[k])
    ensures Flagged(Parted(ls, q[k].writer), Removed(q, k))
  {
    var w := q[k].writer;
    var r, ls' := Removed(q, k), Parted(ls, w);
    forall v | v in ls'.queued && ls'.queued[v] ensures Queued(r, v) {
      assert Queued(q, v);
      var i :| 0 <= i < |q| && q[i].writer == v;
      assert r[if i < k then i else i - 1].writer == v;
    }
    forall i | 0 <= i < |r| ensures EntryOf(ls', r[i]) {
      assert r[i] == q[if i < k then i else i + 1];
      assert EntryOf(ls, r[i]);
    }
  }

  lemma PartKeepsConn<W, S>(ls: Lists<W, S>, q: seq<Entry<W, S>>, k: nat)
    requires k < |q| && EntryOf(ls, q[k]) && Chain(Names(q), ls.head, ls.conn)
    ensures var ls' := Parted(ls, q[k].writer); Chain(Names(Removed(q, k)), ls'.head, ls'.conn)
  {
    assert Names(Removed(q, k)) == Removed(Names(q), k);
    UnlinkKeepsChain(Names(q), ls.head, ls.conn, k);
  }

  lemma PartIsRemoval<W, S>(ls: Lists<W, S>, q: seq<Entry<W, S>>, k: nat)
    requires Describes(ls, q) && Distinct(q) && k < |q|
    ensures EntryOf(ls, q[k])
    ensures Describes(Parted(ls, q[k].writer), Removed(q, k))
  {
    var w := q[k].writer;
    var r, ls' := Removed(q, k), Parted(ls, w);
    PartKeepsFlags(ls, q, k);
    PartKeepsConn(ls, q, k);
    assert ls'.blocked == CountNeedConn(r) by {
      CountRemoved(q, k);
    }
    forall s | s in ls'.heads ensures StreamListed(ls', r, s) {
      assert StreamListed(ls, q, s);
      if s == q[k].stream {
        PartKeepsOwnStream(ls, q, k);
      } else {
        assert StreamListed(ls, q, q[k].stream);
        PartKeepsOtherStream(ls, q, k, s);
      }
    }
  }

  lemma PartKeepsOwnStream<W, S>(ls: Lists<W, S>, q: seq<Entry<W, S>>, k: nat)
    requires Distinct(q) && k < |q| && EntryOf(ls, q[k]) && StreamListed(ls, q, q[k].stream)
    ensures StreamListed(Parted(ls, q[k].writer), Removed(q, k), q[k].stream)
  {
    var s := q[k].stream;
    var i := AtOnStream(q, k);
    var own := OnStream(q, s);
    OnStreamRemoved(q, k, i, s);
    assert Names(Removed(own, i)) == Removed(Names(own), i);
    UnlinkKeepsChain(Names(own), ls.heads[s], ls.str, i);
  }

  lemma PartKeepsOtherStream<W, S>(ls: Lists<W, S>, q: seq<Entry<W, S>>, k: nat, s: S)
    requires Distinct(q) && k < |q| && EntryOf(ls, q[k]) && s != q[k].stream
    requires Flagged(ls, q) && StreamListed(ls, q, q[k].stream) && StreamListed(ls, q, s)
    ensures StreamListed(Parted(ls, q[k].writer), Removed(q, k), s)
  {
    var w := q[k].writer;
    var at := AtOnStream(q, k);
    var i: int := at;
    var mine, own := Names(OnStream(q, q[k].stream)), Names(OnStream(q, s));
    OnStreamRemoved(q, k, at, s);
    StreamsShareNoWaiter(ls, q, q[k].stream, s);
    assert mine[i] == w;
    ChainAt(mine, ls.heads[q[k].stream], ls.str, i);
    forall j | 0 <= j < |own|
      ensures own[j] != w && NodeAt(mine, i - 1) != Some(own[j]) && NodeAt(mine, i + 1) != Some(own[j])
    {
    }
    ChainFrame(own, ls.heads[s], ls.str, Unlinked(ls.str, w));
  }

  lemma StreamsShareNoWaiter<W, S>(ls: Lists<W, S>, q: seq<Entry<W, S>>, s: S, t: S)
    requires Flagged(ls, q) && s != t
    ensures forall i, j :: 0 <= i < |OnStream(q, s)| && 0 <= j < |OnStream(q, t)| ==>
      Names(OnStream(q, s))[i] != Names(OnStream(q, t))[j]
  {
    forall i, j | 0 <= i < |OnStream(q, s)| && 0 <= j < |OnStream(q, t)|
      ensures Names(OnStream(q, s))[i] != Names(OnStream(q, t))[j]
    {
      var k := OnStreamAt(q, s, i);
      var m := OnStreamAt(q, t, j);
      assert EntryOf(ls, q[k]) && EntryOf(ls, q[m]);
    }
  }

  // ---------------------------------------------------------------- wake walks

  lemma {:induction false} RemovedHit<W, S>(q: seq<Entry<W, S>>, k: nat, wake: Wake<S>)
    requires k < |q| && Hits(wake, q[k])
    ensures After(Removed(q, k), wake) == After(q, wake)
  {
    if k == 0 {
      assert Removed(q, 0) == q[1..];
    } else {
      assert Removed(q, k)[0] == q[0] && Removed(q, k)[1..] == Removed(q[1..], k - 1);
      RemovedHit(q[1..], k - 1, wake);
    }
  }

  lemma WokenRemoved<W, S>(q: seq<Entry<W, S>>, k: nat, wake: Wake<S>)
    requires k < |q| && Hits(wake, q[k])
    ensures Woken(q, wake) == {q[k].writer} + Woken(Removed(q, k), wake)
  {
    var r := Removed(q, k);
    forall w | w in Woken(q, wake) ensures w == q[k].writer || w in Woken(r, wake) {
      var e :| e in q && e.writer == w && Hits(wake, e);
      var i :| 0 <= i < |q| && q[i] == e;
      if i != k {
        assert r[if i < k then i else i - 1] == e;
      }
    }
    forall w | w in Woken(r, wake) ensures w in Woken(q, wake) {
      var e :| e in r && e.writer == w && Hits(wake, e);
      assert e in q;
    }
  }

  lemma {:induction false} NobodyHit<W, S>(q: seq<Entry<W, S>>, wake: Wake<S>)
    requires forall i :: 0 <= i < |q| ==> !Hits(wake, q[i])
    ensures After(q, wake) == q && Woken(q, wake) == {}
  {
    if q != [] {
      NobodyHit(q[1..], wake);
    }
  }

  /** The first k entries are not for this notification. */
  ghost predicate PassedOver<W, S>(q: seq<Entry<W, S>>, k: nat, wake: Wake<S>) {
    k <= |q| && forall i :: 0 <= i < k ==> !Hits(wake, q[i])
  }

  /** Taking entry k out puts its successor at position k. */
  lemma WalkRemoved<W, S>(q: seq<Entry<W, S>>, k: nat, wake: Wake<S>)
    requires k < |q| && PassedOver(q, k, wake)
    ensures PassedOver(Removed(q, k), k, wake)
    ensures NodeAt(Names(Removed(q, k)), k) == NodeAt(Names(q), k + 1)
  {
  }

  /** The walk along the connection list: everything before position k has been
      passed over, and the next node is the successor in the untouched rest. */
  lemma WalkNext<W, S>(ls: Lists<W, S>, q: seq<Entry<W, S>>, k: nat)
    requires Describes(ls, q) && k < |q|
    ensures EntryOf(ls, q[k])
    ensures ls.conn.next[q[k].writer] == NodeAt(Names(q), k + 1)
  {
    assert Names(q)[k] == q[k].writer;
    ChainAt(Names(q), ls.head, ls.conn, k);
  }

  /** The walk along a stream's list: its first node is the first waiter of that
      stream, and the next node the second. */
  lemma StreamWalkNext<W, S>(ls: Lists<W, S>, q: seq<Entry<W, S>>, s: S) returns (k: nat)
    requires Describes(ls, q) && s in ls.heads && OnStream(q, s) != []
    ensures k < |q| && EntryOf(ls, q[k]) && q[k] == OnStream(q, s)[0] && q[k].stream == s
    ensures ls.heads[s] == Some(q[k].writer)
    ensures ls.str.next[q[k].writer] == NodeAt(Names(OnStream(q, s)), 1)
    ensures OnStream(Removed(q, k), s) == OnStream(q, s)[1..]
  {
    QueueIsDistinct(q, ls.head, ls.conn);
    assert StreamListed(ls, q, s);
    k := OnStreamAt(q, s, 0);
    OnStreamRemoved(q, k, 0, s);
    assert Removed(OnStream(q, s), 0) == OnStream(q, s)[1..];
    assert Names(OnStream(q, s))[0] == q[k].writer;
    ChainAt(Names(OnStream(q, s)), ls.heads[s], ls.str, 0);
  }

  lemma NobodyOnStream<W, S>(q: seq<Entry<W, S>>, s: S)
    requires OnStream(q, s) == []
    ensures forall i :: 0 <= i < |q| ==> !Hits(Wake<S>.Stream(s), q[i])
  {
    forall i | 0 <= i < |q| ensures q[i].stream != s {
      if q[i].stream == s {
        var j := AtOnStream(q, i);
      }
    }
  }

  lemma {:induction false} NobodyBlocked<W, S>(q: seq<Entry<W, S>>)
    requires CountNeedConn(q) == 0
    ensures forall i :: 0 <= i < |q| ==> !q[i].needConn
  {
    if q != [] {
      NobodyBlocked(q[1..]);
      forall i | 0 <= i < |q| ensures !q[i].needConn {
        if i > 0 {
          assert !q[1..][i - 1].needConn;
        }
      }
    }
  }
}
