/** The population of parked writers as a value: the newest first, each with the
    stream it waits on and the reason it recorded when it parked. The linked
    lists of FcWaiters are proved to hold exactly these values, and the
    transition system of Outbound runs on them. */
module ParkQueue {

  datatype Entry<W, S> = Entry(writer: W, stream: S, needConn: bool)

  /** The three grants a notifier can announce. */
  datatype Wake<S> = All | Conn | Stream(stream: S)

  predicate Hits<W(==), S(==)>(wake: Wake<S>, e: Entry<W, S>) {
    match wake
    case All => true
    case Conn => e.needConn
    case Stream(s) => e.stream == s
  }

  ghost predicate Distinct<W, S>(q: seq<Entry<W, S>>) {
    forall i, j :: 0 <= i < j < |q| ==> q[i].writer != q[j].writer
  }

  predicate Queued<W(==), S>(q: seq<Entry<W, S>>, w: W) {
    exists i :: 0 <= i < |q| && q[i].writer == w
  }

  /** Parking twice is parking once. */
  function Park<W(==), S>(q: seq<Entry<W, S>>, e: Entry<W, S>): (r: seq<Entry<W, S>>)
    ensures Queued(r, e.writer)
    ensures |q| <= |r| <= |q| + 1 && r[|r| - |q|..] == q
    ensures |r| > |q| ==> r[0] == e && !Queued(q, e.writer)
    ensures Distinct(q) ==> Distinct(r)
  {
    if Queued(q, e.writer) then q
    else
      var r := [e] + q;
      assert r[0].writer == e.writer;
      r
  }

  /** The queue without the given writers, in the same order. */
  function Drop<W(==), S>(q: seq<Entry<W, S>>, ws: set<W>): (r: seq<Entry<W, S>>)
    ensures |r| <= |q|
    ensures forall e | e in r :: e in q && e.writer !in ws
    ensures forall e | e in q :: e.writer !in ws ==> e in r
    ensures Distinct(q) ==> Distinct(r)
  {
    if q == [] then []
    else
      var rest := Drop(q[1..], ws);
      assert q == [q[0]] + q[1..];
      ConsDistinct(q, rest);
      if q[0].writer in ws then rest else [q[0]] + rest
  }

  /** What stays, stays in order: dropping from a queue is dropping from its parts. */
  lemma {:induction false} DropSplits<W, S>(a: seq<Entry<W, S>>, b: seq<Entry<W, S>>, ws: set<W>)
    ensures Drop(a + b, ws) == Drop(a, ws) + Drop(b, ws)
  {
    if a == [] {
      assert a + b == b;
    } else {
      assert (a + b)[1..] == a[1..] + b;
      DropSplits(a[1..], b, ws);
    }
  }

  /** The writers a notification releases. */
  function Woken<W(==), S(==)>(q: seq<Entry<W, S>>, wake: Wake<S>): (ws: set<W>)
    ensures forall w | w in ws :: exists e :: e in q && e.writer == w && Hits(wake, e)
    ensures forall e | e in q :: Hits(wake, e) ==> e.writer in ws
  {
    set e | e in q && Hits(wake, e) :: e.writer
  }

  /** The queue a notification leaves behind: everybody it does not hit. */
  function After<W(==), S(==)>(q: seq<Entry<W, S>>, wake: Wake<S>): (r: seq<Entry<W, S>>)
    ensures forall e | e in r :: e in q && !Hits(wake, e)
    ensures forall e | e in q :: !Hits(wake, e) ==> e in r
    ensures Distinct(q) ==> Distinct(r)
  {
    if q == [] then []
    else
      var rest := After(q[1..], wake);
      assert q == [q[0]] + q[1..];
      ConsDistinct(q, rest);
      if Hits(wake, q[0]) then rest else [q[0]] + rest
  }

  lemma {:induction false} AfterSplits<W, S>(a: seq<Entry<W, S>>, b: seq<Entry<W, S>>, wake: Wake<S>)
    ensures After(a + b, wake) == After(a, wake) + After(b, wake)
  {
    if a == [] {
      assert a + b == b;
    } else {
      assert (a + b)[1..] == a[1..] + b;
      AfterSplits(a[1..], b, wake);
    }
  }

  lemma ConsDistinct<W, S>(q: seq<Entry<W, S>>, rest: seq<Entry<W, S>>)
    requires q != [] && forall e | e in rest :: e in q[1..]
    ensures Distinct(q) && Distinct(rest) ==> Distinct([q[0]] + rest)
  {
    forall i | Distinct(q) && 0 <= i < |rest| ensures rest[i].writer != q[0].writer {
      assert rest[i] in q[1..];
    }
  }

  lemma WokenIsHit<W, S>(q: seq<Entry<W, S>>, wake: Wake<S>)
    ensures Distinct(q) ==> forall e | e in q :: e.writer in Woken(q, wake) <==> Hits(wake, e)
  {
    forall e | Distinct(q) && e in q && e.writer in Woken(q, wake) ensures Hits(wake, e) {
      var f :| f in q && f.writer == e.writer && Hits(wake, f);
      SameWriterSameEntry(q, e, f);
    }
  }

  lemma SameWriterSameEntry<W, S>(q: seq<Entry<W, S>>, e: Entry<W, S>, f: Entry<W, S>)
    requires Distinct(q) && e in q && f in q && e.writer == f.writer
    ensures e == f
  {
    var i :| 0 <= i < |q| && q[i] == e;
    var j :| 0 <= j < |q| && q[j] == f;
  }

  /** Writers blocked on the connection window alone: the value that
      fcConnBlocked has to equal. */
  function CountNeedConn<W, S>(q: seq<Entry<W, S>>): nat {
    if q == [] then 0 else (if q[0].needConn then 1 else 0) + CountNeedConn(q[1..])
  }

  /** One stream's own list: its entries, in queue order. */
  function OnStream<W, S(==)>(q: seq<Entry<W, S>>, s: S): seq<Entry<W, S>> {
    if q == [] then []
    else (if q[0].stream == s then [q[0]] else []) + OnStream(q[1..], s)
  }
}
