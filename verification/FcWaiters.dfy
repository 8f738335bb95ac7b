/** The parked writers as the source keeps them: every waiter in two intrusive
    doubly linked lists at once, rooted at the connection and at its stream, with
    a maintained count of the connection-blocked ones. Every method is proved
    against the queue value of ParkQueue. All of it runs under fcOutMu. */
module FcWaiters {
  import opened Windows
  import opened Chains
  import opened ParkQueue
  import opened ParkLists
  import O = Outbound

  /** The outbound half of a ServerStream. */
  class Stream {
    const id: nat
    var sendWindow: int
    var fcHead: FcWaiter?

    constructor (id: nat, sendWindow: int)
      ensures this.id == id && this.sendWindow == sendWindow && fcHead == null
    {
      this.id, this.sendWindow, fcHead := id, sendWindow, null;
    }
  }

  /** id is the waiter's name in the queue value. */
  class FcWaiter {
    ghost const id: nat
    const ss: Stream
    var ready: bool // a value in the one-slot channel
    var needConn: bool
    var queued: bool
    var connPrev: FcWaiter?
    var connNext: FcWaiter?
    var strPrev: FcWaiter?
    var strNext: FcWaiter?

    constructor (ghost id: nat, ss: Stream)
      ensures this.id == id && this.ss == ss && NotParked(this)
    {
      this.id, this.ss := id, ss;
      ready, needConn, queued := false, false, false;
      connPrev, connNext, strPrev, strNext := null, null, null, null;
    }
  }

  /** A waiter as parkForSendCredits declares it. */
  ghost predicate NotParked(w: FcWaiter)
    reads w
  {
    && !w.ready && !w.needConn && !w.queued
    && w.connPrev == null && w.connNext == null && w.strPrev == null && w.strNext == null
  }

  ghost function Id(w: FcWaiter?): Option<nat> {
    if w == null then None else Some(w.id)
  }

  ghost predicate Within(w: FcWaiter?, ws: set<FcWaiter>) {
    w == null || w in ws
  }

  /** names finds every waiter by its id, so ids are unique. */
  ghost predicate Named(ws: set<FcWaiter>, names: map<nat, FcWaiter>) {
    forall w {:trigger w.id} :: w in ws ==> w.id in names && names[w.id] == w
  }

  ghost predicate Placed(ss: set<Stream>, places: map<nat, Stream>) {
    forall s {:trigger s.id} :: s in ss ==> s.id in places && places[s.id] == s
  }

  /** The connection links of the waiters are those of l. */
  ghost predicate ConnInStep(l: Links<nat>, ws: set<FcWaiter>)
    reads ws`connPrev, ws`connNext
  {
    && (forall w {:trigger w.connPrev} {:trigger l.prev[w.id]} :: w in ws ==>
          Within(w.connPrev, ws) && w.id in l.prev && l.prev[w.id] == Id(w.connPrev))
    && (forall w {:trigger w.connNext} {:trigger l.next[w.id]} :: w in ws ==>
          Within(w.connNext, ws) && w.id in l.next && l.next[w.id] == Id(w.connNext))
  }

  /** The stream links of the waiters are those of l. */
  ghost predicate StrInStep(l: Links<nat>, ws: set<FcWaiter>)
    reads ws`strPrev, ws`strNext
  {
    && (forall w {:trigger w.strPrev} {:trigger l.prev[w.id]} :: w in ws ==>
          Within(w.strPrev, ws) && w.id in l.prev && l.prev[w.id] == Id(w.strPrev))
    && (forall w {:trigger w.strNext} {:trigger l.next[w.id]} :: w in ws ==>
          Within(w.strNext, ws) && w.id in l.next && l.next[w.id] == Id(w.strNext))
  }

  /** The flags of the waiters are those of the three maps. */
  ghost predicate WaitersInStep(of: map<nat, nat>, need: map<nat, bool>, queued: map<nat, bool>, ws: set<FcWaiter>)
    reads ws`needConn, ws`queued
  {
    && (forall w {:trigger w.id} :: w in ws ==> w.id in of && w.id in need && w.id in queued)
    && (forall w {:trigger w.ss} {:trigger of[w.id]} :: w in ws ==> of[w.id] == w.ss.id)
    && (forall w {:trigger w.needConn} {:trigger need[w.id]} :: w in ws ==> need[w.id] == w.needConn)
    && (forall w {:trigger w.queued} {:trigger queued[w.id]} :: w in ws ==> queued[w.id] == w.queued)
  }

  ghost predicate TokensInStep(tokens: set<nat>, ws: set<FcWaiter>)
    reads ws`ready
  {
    forall w {:trigger w.ready} :: w in ws ==> (w.ready <==> w.id in tokens)
  }

  /** The list heads of the streams are those of the map. */
  ghost predicate StreamsInStep(heads: map<nat, Option<nat>>, ss: set<Stream>, ws: set<FcWaiter>)
    reads ss`fcHead
  {
    forall s {:trigger s.fcHead} :: s in ss ==> Within(s.fcHead, ws) && s.id in heads && heads[s.id] == Id(s.fcHead)
  }

  ghost function Start(names: map<nat, FcWaiter>, places: map<nat, Stream>): Lists<nat, nat> {
    var unlinked: Links<nat> := Links(map i | i in names :: None, map i | i in names :: None);
    Lists(None, unlinked, map i | i in places :: None, unlinked,
          map i | i in names :: names[i].ss.id, map i | i in names :: false, map i | i in names :: false, 0)
  }

  ghost predicate Census(names: map<nat, FcWaiter>, places: map<nat, Stream>)
    reads names.Values, places.Values
  {
    && (forall i :: i in names ==> names[i].id == i && NotParked(names[i]))
    && (forall i :: i in names ==> names[i].ss.id in places && places[names[i].ss.id] == names[i].ss)
    && (forall i :: i in places ==> places[i].id == i && places[i].fcHead == null)
  }

  lemma StartIsEmpty(names: map<nat, FcWaiter>, places: map<nat, Stream>)
    requires Census(names, places)
    ensures var ls, ws, ss := Start(names, places), names.Values, places.Values;
      && Named(ws, names) && Placed(ss, places) && (forall w {:trigger w.ss} :: w in ws ==> w.ss in ss)
      && WaitersInStep(ls.of, ls.need, ls.queued, ws) && StreamsInStep(ls.heads, ss, ws)
      && ConnInStep(ls.conn, ws) && StrInStep(ls.str, ws) && TokensInStep({}, ws)
      && Describes(ls, [])
  {
    var ls, ws, ss := Start(names, places), names.Values, places.Values;
    assert forall w :: w in ws ==> w.id in names && names[w.id] == w && NotParked(w);
    assert forall s :: s in ss ==> s.id in places && places[s.id] == s && s.fcHead == null;
  }

  /** The fields of ServerConn that fcOutMu guards. */
  class SendSide {
    var fcHead: FcWaiter?
    var fcConnBlocked: int
    var peerConnSendWindow: int
    ghost var queue: seq<Entry<nat, nat>>
    ghost var lists: Lists<nat, nat>
    ghost var tokens: set<nat> // waiters with a value in ready

    // The waiters the writers of a run declare, and their streams, by id.
    ghost const names: map<nat, FcWaiter>
    ghost const places: map<nat, Stream>
    ghost const waiters: set<FcWaiter>
    ghost const streams: set<Stream>

    /** The heap holds the snapshot ls. */
    ghost predicate Holds(ls: Lists<nat, nat>)
      reads this`fcHead, this`fcConnBlocked, streams`fcHead
      reads waiters`needConn, waiters`queued, waiters`connPrev, waiters`connNext, waiters`strPrev, waiters`strNext
    {
      && Named(waiters, names) && Placed(streams, places)
      && (forall w {:trigger w.ss} :: w in waiters ==> w.ss in streams)
      && Within(fcHead, waiters) && ls.head == Id(fcHead) && ls.blocked == fcConnBlocked
      && WaitersInStep(ls.of, ls.need, ls.queued, waiters) && StreamsInStep(ls.heads, streams, waiters)
      && ConnInStep(ls.conn, waiters) && StrInStep(ls.str, waiters)
    }

    ghost predicate InStep()
      reads this`fcHead, this`fcConnBlocked, this`lists, streams`fcHead
      reads waiters`needConn, waiters`queued, waiters`connPrev, waiters`connNext, waiters`strPrev, waiters`strNext
    {
      Holds(lists)
    }

    /** Both list families, the flags and the counter describe the one queue. */
    ghost predicate Valid()
      reads this`fcHead, this`fcConnBlocked, this`lists, this`queue, this`tokens, streams`fcHead
      reads waiters`needConn, waiters`queued, waiters`connPrev, waiters`connNext, waiters`strPrev, waiters`strNext, waiters`ready
    {
      && InStep() && Describes(lists, queue)
      && TokensInStep(tokens, waiters)
    }

    constructor (ghost names: map<nat, FcWaiter>, ghost places: map<nat, Stream>)
      requires Census(names, places)
      ensures Valid() && queue == [] && tokens == {} && waiters == names.Values && streams == places.Values
      ensures peerConnSendWindow == INITIAL_WINDOW
    {
      fcHead, fcConnBlocked, peerConnSendWindow := null, 0, INITIAL_WINDOW;
      queue, tokens := [], {};
      this.names, this.places, waiters, streams := names, places, names.Values, places.Values;
      lists := Start(names, places);
      StartIsEmpty(names, places);
      new;
      assert Holds(lists);
    }

    /** Pushes w on the connection list. */
    method LinkConn(w: FcWaiter, ghost l: Links<nat>, ghost ws: set<FcWaiter>)
      requires w in ws && Named(ws, names) && Within(fcHead, ws) && ConnInStep(l, ws)
      modifies this`fcHead, ws`connPrev, ws`connNext
      ensures fcHead == w && ConnInStep(Pushed(l, old(Id(fcHead)), w.id), ws)
    {
      w.connPrev := null;
      w.connNext := fcHead;
      if fcHead != null {
        fcHead.connPrev := w;
      }
      fcHead := w;
    }

    /** Pushes w on its stream's list. */
    method LinkStr(w: FcWaiter, ghost l: Links<nat>, ghost heads: map<nat, Option<nat>>, ghost ss: set<Stream>, ghost ws: set<FcWaiter>)
      requires w in ws && Named(ws, names) && Placed(ss, places) && w.ss in ss && StreamsInStep(heads, ss, ws) && StrInStep(l, ws)
      modifies ss`fcHead, ws`strPrev, ws`strNext
      ensures StreamsInStep(heads[w.ss.id := Some(w.id)], ss, ws)
      ensures w.ss.id in heads && StrInStep(Pushed(l, heads[w.ss.id], w.id), ws)
    {
      assert Within(w.ss.fcHead, ws);
      w.strPrev := null;
      w.strNext := w.ss.fcHead;
      if w.ss.fcHead != null {
        w.ss.fcHead.strPrev := w;
      }
      w.ss.fcHead := w;
    }

    /** Takes w out of the connection list. */
    method PartConn(w: FcWaiter, ghost l: Links<nat>, ghost ws: set<FcWaiter>)
      requires w in ws && Named(ws, names) && ConnInStep(l, ws) && Within(fcHead, ws) && w.id in l.prev && w.id in l.next
      modifies this`fcHead, ws`connPrev, ws`connNext
      ensures Within(fcHead, ws) && Id(fcHead) == HeadWithout(l, old(Id(fcHead)), w.id)
      ensures ConnInStep(Unlinked(l, w.id), ws)
    {
      var p, n := w.connPrev, w.connNext;
      assert Within(p, ws) && l.prev[w.id] == Id(p);
      assert Within(n, ws) && l.next[w.id] == Id(n);
      if p != null {
        p.connNext := n;
      } else {
        fcHead := n;
      }
      if n != null {
        n.connPrev := p;
      }
      w.connPrev, w.connNext := null, null;
    }

    /** Takes w out of its stream's list. */
    method PartStr(w: FcWaiter, ghost l: Links<nat>, ghost heads: map<nat, Option<nat>>, ghost ss: set<Stream>, ghost ws: set<FcWaiter>)
      requires w in ws && Named(ws, names) && Placed(ss, places) && w.ss in ss && StreamsInStep(heads, ss, ws) && StrInStep(l, ws)
      requires w.id in l.prev && w.id in l.next && w.ss.id in heads
      modifies ss`fcHead, ws`strPrev, ws`strNext
      ensures StreamsInStep(heads[w.ss.id := HeadWithout(l, heads[w.ss.id], w.id)], ss, ws)
      ensures StrInStep(Unlinked(l, w.id), ws)
    {
      assert Within(w.ss.fcHead, ws) && heads[w.ss.id] == Id(w.ss.fcHead);
      var p, n := w.strPrev, w.strNext;
      assert Within(p, ws) && l.prev[w.id] == Id(p);
      assert Within(n, ws) && l.next[w.id] == Id(n);
      if p != null {
        p.strNext := n;
      } else {
        w.ss.fcHead := n;
      }
      if n != null {
        n.strPrev := p;
      }
      w.strPrev, w.strNext := null, null;
      forall s | s in ss ensures s.id in heads && (s != w.ss ==> s.id != w.ss.id && heads[s.id] == Id(s.fcHead) && Within(s.fcHead, ws)) {
        assert places[s.id] == s;
        assert old(Within(s.fcHead, ws) && heads[s.id] == Id(s.fcHead));
      }
    }

    lemma WaiterIsKnown(w: FcWaiter)
      requires InStep() && w in waiters
      ensures Known(lists, w.id)
    {
      assert w.ss in streams && Within(w.ss.fcHead, waiters);
      assert Within(w.connPrev, waiters) && Within(w.connNext, waiters);
      assert Within(w.strPrev, waiters) && Within(w.strNext, waiters);
    }

    /** Flips the queued flag and keeps the count. */
    method Flag(w: FcWaiter, up: bool, ghost ls: Lists<nat, nat>)
      requires w in waiters && Named(waiters, names) && WaitersInStep(ls.of, ls.need, ls.queued, waiters)
      modifies this`fcConnBlocked, waiters`queued
      ensures w.queued == up && w.id in ls.need && WaitersInStep(ls.of, ls.need, ls.queued[w.id := up], waiters)
      ensures fcConnBlocked == old(fcConnBlocked) + (if !ls.need[w.id] then 0 else if up then 1 else -1)
    {
      assert ls.need[w.id] == w.needConn;
      w.queued := up;
      if w.needConn {
        fcConnBlocked := if up then fcConnBlocked + 1 else fcConnBlocked - 1;
      }
    }

    /** Pushes w on both lists. */
    method LinkBoth(w: FcWaiter, ghost ls: Lists<nat, nat>, ghost ss: set<Stream>, ghost ws: set<FcWaiter>)
      requires w in ws && Named(ws, names) && Placed(ss, places) && w.ss in ss && Known(ls, w.id) && ls.of[w.id] == w.ss.id
      requires Within(fcHead, ws) && Id(fcHead) == ls.head && StreamsInStep(ls.heads, ss, ws)
      requires ConnInStep(ls.conn, ws) && StrInStep(ls.str, ws) && !ls.queued[w.id]
      modifies this`fcHead, ss`fcHead, ws`connPrev, ws`connNext, ws`strPrev, ws`strNext
      ensures var ls' := Linked(ls, w.id);
        && Within(fcHead, ws) && Id(fcHead) == ls'.head && StreamsInStep(ls'.heads, ss, ws)
        && ConnInStep(ls'.conn, ws) && StrInStep(ls'.str, ws)
    {
      LinkConn(w, ls.conn, ws);
      LinkStr(w, ls.str, ls.heads, ss, ws);
    }

    method LinkFrom(w: FcWaiter, ghost ls: Lists<nat, nat>)
      requires Holds(ls) && w in waiters && !w.queued && Known(ls, w.id)
      modifies this`fcHead, this`fcConnBlocked, streams`fcHead
      modifies waiters`queued, waiters`connPrev, waiters`connNext, waiters`strPrev, waiters`strNext
      ensures Holds(Linked(ls, w.id))
    {
      assert ls.of[w.id] == w.ss.id && !ls.queued[w.id];
      Flag(w, true, ls);
      LinkBoth(w, ls, streams, waiters);
    }

    /** The snapshot and the queue value follow the heap. */
    ghost method Record(ls: Lists<nat, nat>, q: seq<Entry<nat, nat>>)
      requires Holds(ls)
      modifies this`lists, this`queue
      ensures InStep() && lists == ls && queue == q
    {
      lists, queue := ls, q;
      assert Holds(ls);
    }

    method Link(w: FcWaiter, ghost ls: Lists<nat, nat>, ghost q: seq<Entry<nat, nat>>)
      requires InStep() && w in waiters && !w.queued && Known(lists, w.id) && ls == Linked(lists, w.id)
      modifies this`fcHead, this`fcConnBlocked, this`lists, this`queue, streams`fcHead
      modifies waiters`queued, waiters`connPrev, waiters`connNext, waiters`strPrev, waiters`strNext
      ensures InStep() && lists == ls && queue == q
    {
      LinkFrom(w, lists);
      Record(ls, q);
    }

    /** Takes w out of both lists. */
    method PartBoth(w: FcWaiter, ghost ls: Lists<nat, nat>, ghost ss: set<Stream>, ghost ws: set<FcWaiter>)
      requires w in ws && Named(ws, names) && Placed(ss, places) && w.ss in ss && Known(ls, w.id) && ls.of[w.id] == w.ss.id
      requires Within(fcHead, ws) && Id(fcHead) == ls.head && StreamsInStep(ls.heads, ss, ws)
      requires ConnInStep(ls.conn, ws) && StrInStep(ls.str, ws) && ls.queued[w.id]
      modifies this`fcHead, ss`fcHead, ws`connPrev, ws`connNext, ws`strPrev, ws`strNext
      ensures var ls' := Parted(ls, w.id);
        && Within(fcHead, ws) && Id(fcHead) == ls'.head && StreamsInStep(ls'.heads, ss, ws)
        && ConnInStep(ls'.conn, ws) && StrInStep(ls'.str, ws)
    {
      PartConn(w, ls.conn, ws);
      PartStr(w, ls.str, ls.heads, ss, ws);
    }

    method PartFrom(w: FcWaiter, ghost ls: Lists<nat, nat>)
      requires Holds(ls) && w in waiters && w.queued && Known(ls, w.id)
      modifies this`fcHead, this`fcConnBlocked, streams`fcHead
      modifies waiters`queued, waiters`connPrev, waiters`connNext, waiters`strPrev, waiters`strNext
      ensures Holds(Parted(ls, w.id)) && !w.queued
    {
      assert ls.of[w.id] == w.ss.id && ls.queued[w.id];
      Flag(w, false, ls);
      PartBoth(w, ls, streams, waiters);
    }

    method Part(w: FcWaiter, ghost ls: Lists<nat, nat>, ghost q: seq<Entry<nat, nat>>)
      requires InStep() && w in waiters && w.queued && Known(lists, w.id) && ls == Parted(lists, w.id)
      modifies this`fcHead, this`fcConnBlocked, this`lists, this`queue, streams`fcHead
      modifies waiters`queued, waiters`connPrev, waiters`connNext, waiters`strPrev, waiters`strNext
      ensures InStep() && lists == ls && queue == q && !w.queued
    {
      PartFrom(w, lists);
      Record(ls, q);
    }

    lemma ParkStep(w: FcWaiter)
      requires Valid() && w in waiters
      ensures Known(lists, w.id) && lists.queued[w.id] == w.queued
      ensures w.queued ==> Park(queue, Entry(w.id, w.ss.id, w.needConn)) == queue
      ensures !w.queued ==> Describes(Linked(lists, w.id), Park(queue, Entry(w.id, w.ss.id, w.needConn)))
    {
      assert lists.queued[w.id] ==> Queued(queue, w.id);
      WaiterIsKnown(w);
      assert lists.of[w.id] == w.ss.id && lists.need[w.id] == w.needConn;
      LinkIsPark(lists, queue, w.id);
    }

    lemma UnparkStep(w: FcWaiter)
      requires Valid() && w in waiters
      ensures Known(lists, w.id) && lists.queued[w.id] == w.queued
      ensures !w.queued ==> Drop(queue, {w.id}) == queue
      ensures w.queued ==> Describes(Parted(lists, w.id), Drop(queue, {w.id}))
    {
      if !w.queued {
        forall i | 0 <= i < |queue| ensures queue[i].writer !in {w.id} {
          assert EntryOf(lists, queue[i]);
        }
        DropNone(queue, {w.id});
      }
      WaiterIsKnown(w);
      PartIsUnpark(lists, queue, w.id);
    }

    method SampleFrom(w: FcWaiter, needConn: bool, ghost ls: Lists<nat, nat>)
      requires Holds(ls) && w in waiters
      modifies w`needConn
      ensures Holds(Resampled(ls, w.id, needConn)) && w.needConn == needConn
    {
      w.needConn := needConn;
    }

    /** Records which window is the binding constraint. */
    method SampleNeedConn(w: FcWaiter)
      requires Valid() && w in waiters && !w.queued
      modifies w`needConn, this`lists
      ensures Valid() && w.needConn == (w.ss.sendWindow > 0)
    {
      WaiterIsKnown(w);
      assert lists.queued[w.id] == w.queued;
      ResampleKeeps(lists, queue, w.id, w.ss.sendWindow > 0);
      SampleFrom(w, w.ss.sendWindow > 0, lists);
      lists := Resampled(lists, w.id, w.ss.sendWindow > 0);
    }

    method FcPark(w: FcWaiter)
      requires Valid() && w in waiters
      modifies this`fcHead, this`fcConnBlocked, this`lists, this`queue, streams`fcHead
      modifies waiters`queued, waiters`connPrev, waiters`connNext, waiters`strPrev, waiters`strNext
      ensures Valid()
      ensures queue == Park(old(queue), Entry(w.id, w.ss.id, w.needConn))
    {
      ParkStep(w);
      if !w.queued {
        Link(w, Linked(lists, w.id), Park(queue, Entry(w.id, w.ss.id, w.needConn)));
      }
    }

    method FcUnpark(w: FcWaiter)
      requires Valid() && w in waiters
      modifies this`fcHead, this`fcConnBlocked, this`lists, this`queue, streams`fcHead
      modifies waiters`queued, waiters`connPrev, waiters`connNext, waiters`strPrev, waiters`strNext
      ensures Valid() && !w.queued
      ensures queue == Drop(old(queue), {w.id})
    {
      UnparkStep(w);
      if w.queued {
        Part(w, Parted(lists, w.id), Drop(queue, {w.id}));
      }
    }

    /** Unlinks w and makes it runnable. */
    method FcWake(w: FcWaiter)
      requires Valid() && w in waiters
      modifies this`fcHead, this`fcConnBlocked, this`lists, this`queue, streams`fcHead
      modifies waiters`queued, waiters`connPrev, waiters`connNext, waiters`strPrev, waiters`strNext, waiters`ready, this`tokens
      ensures Valid()
      ensures queue == Drop(old(queue), {w.id})
      ensures tokens == old(tokens) + {w.id}
    {
      FcUnpark(w);
      Signal(w);
    }

    /** A send that never blocks: a full channel stays full. */
    method Signal(w: FcWaiter)
      requires Valid() && w in waiters
      modifies waiters`ready, this`tokens
      ensures Valid() && tokens == old(tokens) + {w.id}
    {
      w.ready := true;
      tokens := tokens + {w.id};
      assert Holds(lists);
    }

    /** Drops a token that arrived while the writer was leaving for another reason. */
    method DrainReady(w: FcWaiter)
      requires Valid() && w in waiters
      modifies w`ready, this`tokens
      ensures Valid() && !w.ready && tokens == old(tokens) - {w.id}
    {
      w.ready := false;
      tokens := tokens - {w.id};
      assert Holds(lists);
    }

    /** The state of a wake that started with queue q and tokens t: whoever has
        left the queue has its token, and who is still to wake is still queued. */
    ghost predicate Waking(q: seq<Entry<nat, nat>>, t: set<nat>, wake: Wake<nat>)
      reads this`queue, this`tokens
    {
      After(queue, wake) == After(q, wake) && tokens + Woken(queue, wake) == t + Woken(q, wake)
    }

    /** w is the waiter at position k of the connection list, or null at its end. */
    ghost predicate AtConn(w: FcWaiter?, k: nat)
      reads this`queue
    {
      k <= |queue| && Within(w, waiters) && Id(w) == NodeAt(Names(queue), k)
    }

    /** The same for the first position of a stream's own list. */
    ghost predicate AtStr(w: FcWaiter?, s: Stream)
      reads this`queue
    {
      Within(w, waiters) && Id(w) == NodeAt(Names(OnStream(queue, s.id)), 0)
    }

    lemma ConnNext(w: FcWaiter, k: nat)
      requires Valid() && AtConn(w, k)
      ensures k < |queue| && w in waiters && AtConn(w.connNext, k + 1)
      ensures queue[k] == Entry(w.id, w.ss.id, w.needConn)
    {
      WalkNext(lists, queue, k);
      assert Within(w.connNext, waiters) && lists.conn.next[w.id] == Id(w.connNext);
      assert lists.of[w.id] == w.ss.id && lists.need[w.id] == w.needConn;
    }

    /** Wakes entry k of the queue, which the notification hits. */
    method WakeAt(w: FcWaiter, ghost k: nat, ghost q: seq<Entry<nat, nat>>, ghost t: set<nat>, ghost wake: Wake<nat>)
      requires Valid() && w in waiters && Waking(q, t, wake)
      requires k < |queue| && queue[k].writer == w.id && Hits(wake, queue[k])
      modifies this`fcHead, this`fcConnBlocked, this`lists, this`queue, streams`fcHead
      modifies waiters`queued, waiters`connPrev, waiters`connNext, waiters`strPrev, waiters`strNext, waiters`ready, this`tokens
      ensures Valid() && queue == Removed(old(queue), k) && Waking(q, t, wake)
    {
      ghost var before, held := queue, tokens;
      DropIsRemoval(k, wake);
      FcWake(w);
      WakingOn(q, t, before, held, queue, tokens, w.id, wake);
    }

    lemma WakingOn(q: seq<Entry<nat, nat>>, t: set<nat>, before: seq<Entry<nat, nat>>, held: set<nat>,
                   after: seq<Entry<nat, nat>>, now: set<nat>, w: nat, wake: Wake<nat>)
      requires After(before, wake) == After(q, wake) && held + Woken(before, wake) == t + Woken(q, wake)
      requires After(after, wake) == After(before, wake) && Woken(before, wake) == {w} + Woken(after, wake) && now == held + {w}
      ensures After(after, wake) == After(q, wake) && now + Woken(after, wake) == t + Woken(q, wake)
    {
    }

    lemma DropIsRemoval(k: nat, wake: Wake<nat>)
      requires Valid() && k < |queue| && Hits(wake, queue[k])
      ensures Drop(queue, {queue[k].writer}) == Removed(queue, k)
      ensures After(Removed(queue, k), wake) == After(queue, wake)
      ensures Woken(queue, wake) == {queue[k].writer} + Woken(Removed(queue, k), wake)
    {
      QueueIsDistinct(queue, lists.head, lists.conn);
      DropOne(queue, k);
      RemovedHit(queue, k, wake);
      WokenRemoved(queue, k, wake);
    }

    method FcWakeAll()
      requires Valid()
      modifies this`fcHead, this`fcConnBlocked, this`lists, this`queue, streams`fcHead
      modifies waiters`queued, waiters`connPrev, waiters`connNext, waiters`strPrev, waiters`strNext, waiters`ready, this`tokens
      ensures Valid() && queue == After(old(queue), All) && queue == []
      ensures tokens == old(tokens) + Woken(old(queue), All)
    {
      ghost var q, t := queue, tokens;
      var w := fcHead;
      while w != null
        invariant Valid() && AtConn(w, 0) && Waking(q, t, All)
        decreases |queue|
      {
        var next := w.connNext;
        WakeFirst(w, q, t);
        w := next;
      }
      assert queue == [];
    }

    /** One node of the walk. */
    method WakeFirst(w: FcWaiter, ghost q: seq<Entry<nat, nat>>, ghost t: set<nat>)
      requires Valid() && AtConn(w, 0) && Waking(q, t, All)
      modifies this`fcHead, this`fcConnBlocked, this`lists, this`queue, streams`fcHead
      modifies waiters`queued, waiters`connPrev, waiters`connNext, waiters`strPrev, waiters`strNext, waiters`ready, this`tokens
      ensures Valid() && Waking(q, t, All) && AtConn(old(w.connNext), 0) && |queue| < old(|queue|)
    {
      ConnNext(w, 0);
      WalkRemoved(queue, 0, All);
      WakeAt(w, 0, q, t, All);
    }

    /** Only writers blocked on the connection window; none, no walk. */
    method FcWakeConn()
      requires Valid()
      modifies this`fcHead, this`fcConnBlocked, this`lists, this`queue, streams`fcHead
      modifies waiters`queued, waiters`connPrev, waiters`connNext, waiters`strPrev, waiters`strNext, waiters`ready, this`tokens
      ensures Valid() && queue == After(old(queue), Conn)
      ensures tokens == old(tokens) + Woken(old(queue), Conn)
    {
      if fcConnBlocked == 0 {
        NobodyBlocked(queue);
        NobodyHit(queue, Conn);
        return;
      }
      WakeBlocked();
    }

    lemma AllPassedOver(q: seq<Entry<nat, nat>>, k: nat, wake: Wake<nat>)
      requires PassedOver(q, k, wake) && k >= |q|
      ensures After(q, wake) == q && Woken(q, wake) == {}
    {
      NobodyHit(q, wake);
    }

    /** One node of the walk: woken if it waits for the connection, else passed over. */
    method WakeIfBlocked(w: FcWaiter, ghost k: nat, ghost q: seq<Entry<nat, nat>>, ghost t: set<nat>) returns (ghost after: nat)
      requires Valid() && AtConn(w, k) && Waking(q, t, Conn) && PassedOver(queue, k, Conn)
      modifies this`fcHead, this`fcConnBlocked, this`lists, this`queue, streams`fcHead
      modifies waiters`queued, waiters`connPrev, waiters`connNext, waiters`strPrev, waiters`strNext, waiters`ready, this`tokens
      ensures Valid() && Waking(q, t, Conn) && PassedOver(queue, after, Conn)
      ensures AtConn(old(w.connNext), after) && |queue| - after < old(|queue|) - k
    {
      ConnNext(w, k);
      WalkRemoved(queue, k, Conn);
      if w.needConn {
        WakeAt(w, k, q, t, Conn);
        after := k;
      } else {
        after := k + 1;
      }
    }

    method WakeBlocked()
      requires Valid()
      modifies this`fcHead, this`fcConnBlocked, this`lists, this`queue, streams`fcHead
      modifies waiters`queued, waiters`connPrev, waiters`connNext, waiters`strPrev, waiters`strNext, waiters`ready, this`tokens
      ensures Valid() && queue == After(old(queue), Conn)
      ensures tokens == old(tokens) + Woken(old(queue), Conn)
    {
      ghost var q, t, k := queue, tokens, 0;
      var w := fcHead;
      while w != null
        invariant Valid() && AtConn(w, k) && Waking(q, t, Conn) && PassedOver(queue, k, Conn)
        decreases |queue| - k
      {
        var next := w.connNext;
        k := WakeIfBlocked(w, k, q, t);
        w := next;
      }
      AllPassedOver(queue, k, Conn);
    }

    lemma StrNext(w: FcWaiter, s: Stream) returns (k: nat)
      requires Valid() && s in streams && AtStr(w, s)
      ensures w in waiters && k < |queue| && queue[k].writer == w.id && queue[k].stream == s.id
      ensures Within(w.strNext, waiters) && Id(w.strNext) == NodeAt(Names(OnStream(Removed(queue, k), s.id)), 0)
      ensures |OnStream(Removed(queue, k), s.id)| < |OnStream(queue, s.id)|
    {
      assert Within(s.fcHead, waiters) && s.id in lists.heads;
      k := StreamWalkNext(lists, queue, s.id);
      assert Within(w.strNext, waiters) && lists.str.next[w.id] == Id(w.strNext);
    }

    method FcWakeStream(s: Stream)
      requires Valid() && s in streams
      modifies this`fcHead, this`fcConnBlocked, this`lists, this`queue, streams`fcHead
      modifies waiters`queued, waiters`connPrev, waiters`connNext, waiters`strPrev, waiters`strNext, waiters`ready, this`tokens
      ensures Valid() && queue == After(old(queue), Wake.Stream(s.id))
      ensures tokens == old(tokens) + Woken(old(queue), Wake.Stream(s.id))
    {
      ghost var q, t, wake := queue, tokens, Wake<nat>.Stream(s.id);
      StrStart(s);
      var w := s.fcHead;
      while w != null
        invariant Valid() && AtStr(w, s) && Waking(q, t, wake)
        decreases |OnStream(queue, s.id)|
      {
        ghost var k := StrNext(w, s);
        var next := w.strNext;
        WakeAt(w, k, q, t, wake);
        w := next;
      }
      NobodyOnStream(queue, s.id);
      NobodyHit(queue, wake);
    }

    lemma StrStart(s: Stream)
      requires Valid() && s in streams
      ensures AtStr(s.fcHead, s)
    {
      assert Within(s.fcHead, waiters) && lists.heads[s.id] == Id(s.fcHead);
      assert StreamListed(lists, queue, s.id);
    }

    /** Both windows are debited by the same amount, or neither is. */
    method TakeSendCredits(s: Stream, want: int) returns (n: int, ok: bool)
      requires Valid() && want > 0
      modifies this`peerConnSendWindow, s`sendWindow
      ensures Valid() && unchanged(this`queue)
      ensures ok <==> TakeAmount(old(s.sendWindow), old(peerConnSendWindow), want).Some?
      ensures n == if ok then TakeAmount(old(s.sendWindow), old(peerConnSendWindow), want).value else 0
      ensures s.sendWindow == old(s.sendWindow) - n && peerConnSendWindow == old(peerConnSendWindow) - n
    {
      var connWin := peerConnSendWindow;
      var avail := s.sendWindow;
      if connWin < avail {
        avail := connWin;
      }
      if avail <= 0 {
        return 0, false;
      }
      n, ok := want, true;
      if n > avail {
        n := avail;
      }
      Debit(s, n);
    }

    method Debit(s: Stream, n: int)
      requires Valid()
      modifies this`peerConnSendWindow, s`sendWindow
      ensures Valid() && s.sendWindow == old(s.sendWindow) - n && peerConnSendWindow == old(peerConnSendWindow) - n
    {
      s.sendWindow := s.sendWindow - n;
      peerConnSendWindow := peerConnSendWindow - n;
    }

    // ---------------------------------------------------------------- the transition system's steps

    /** The heap holds v. */
    ghost predicate Mirrors(v: O.Side)
      reads this`queue, this`tokens, this`peerConnSendWindow, streams`sendWindow
    {
      && v.queue == queue && v.tokens == tokens && v.conn == peerConnSendWindow && WindowsAre(v.win)
    }

    ghost predicate WindowsAre(win: map<nat, int>)
      reads streams`sendWindow
    {
      forall s {:trigger s.sendWindow} :: s in streams ==> s.id in win && win[s.id] == s.sendWindow
    }

    /** Records the reason, then parks. */
    method SampleAndPark(w: FcWaiter)
      requires Valid() && w in waiters && !w.queued
      modifies w`needConn, this`fcHead, this`fcConnBlocked, this`lists, this`queue, streams`fcHead
      modifies waiters`queued, waiters`connPrev, waiters`connNext, waiters`strPrev, waiters`strNext
      ensures Valid() && queue == Park(old(queue), Entry(w.id, w.ss.id, w.ss.sendWindow > 0))
    {
      SampleNeedConn(w);
      FcPark(w);
    }

    method ParkAndTrack(w: FcWaiter, ghost win: map<nat, int>)
      requires Valid() && w in waiters && !w.queued && WindowsAre(win)
      modifies w`needConn, this`fcHead, this`fcConnBlocked, this`lists, this`queue, streams`fcHead
      modifies waiters`queued, waiters`connPrev, waiters`connNext, waiters`strPrev, waiters`strNext
      ensures Valid() && WindowsAre(win) && queue == Park(old(queue), Entry(w.id, w.ss.id, w.ss.sendWindow > 0))
    {
      SampleAndPark(w);
    }

    /** The windows after n octets were taken from stream s. */
    ghost function Taken(win: map<nat, int>, s: nat, n: int): map<nat, int> {
      if s in win then win[s := win[s] - n] else win
    }

    method TakeAndTrack(s: Stream, want: int, ghost win: map<nat, int>, ghost held: int, ghost conn: int) returns (n: int, ok: bool)
      requires Valid() && want > 0 && s in streams && WindowsAre(win) && s.sendWindow == held && peerConnSendWindow == conn
      modifies this`peerConnSendWindow, s`sendWindow
      ensures Valid() && WindowsAre(Taken(win, s.id, n))
      ensures ok <==> TakeAmount(held, conn, want).Some?
      ensures n == if ok then TakeAmount(held, conn, want).value else 0
      ensures s.sendWindow == held - n && peerConnSendWindow == conn - n
    {
      n, ok := TakeSendCredits(s, want);
      forall t | t in streams ensures t.id in Taken(win, s.id, n) && Taken(win, s.id, n)[t.id] == t.sendWindow {
        assert places[t.id] == t && places[s.id] == s;
        assert t != s ==> t.sendWindow == old(t.sendWindow);
        assert old(s.sendWindow) == win[s.id];
      }
    }

    /** One turn of the loop in parkForSendCredits, up to the select: takes credit, or
        records the reason and parks. */
    method TryOrPark(w: FcWaiter, want: int, ghost v: O.Side, ghost held: int) returns (n: int, ok: bool)
      requires Valid() && w in waiters && !w.queued && want > 0 && w.ss in streams && Mirrors(v) && w.ss.sendWindow == held
      modifies this`peerConnSendWindow, w.ss`sendWindow, w`needConn
      modifies this`fcHead, this`fcConnBlocked, this`lists, this`queue, streams`fcHead
      modifies waiters`queued, waiters`connPrev, waiters`connNext, waiters`strPrev, waiters`strNext
      ensures Valid() && WindowsAre(Taken(v.win, w.ss.id, n))
      ensures ok <==> TakeAmount(held, v.conn, want).Some?
      ensures n == if ok then TakeAmount(held, v.conn, want).value else 0
      ensures peerConnSendWindow == v.conn - n
      ensures ok ==> queue == v.queue
      ensures !ok ==> queue == Park(v.queue, Entry(w.id, w.ss.id, held > 0))
    {
      n, ok := TakeAndTrack(w.ss, want, v.win, held, v.conn);
      if ok {
        return;
      }
      ParkAndTrack(w, Taken(v.win, w.ss.id, n));
    }

    /** The same turn as a step of the transition system. */
    method ParkTurn(w: FcWaiter, want: int, ghost v: O.Side) returns (n: int, ok: bool)
      requires Valid() && w in waiters && !w.queued && want > 0 && Mirrors(v)
      modifies this`peerConnSendWindow, w.ss`sendWindow, w`needConn
      modifies this`fcHead, this`fcConnBlocked, this`lists, this`queue, streams`fcHead
      modifies waiters`queued, waiters`connPrev, waiters`connNext, waiters`strPrev, waiters`strNext
      ensures Valid() && Mirrors(O.TriedOrParked(v, w.id, w.ss.id, want))
    {
      assert w.ss in streams;
      ghost var held := w.ss.sendWindow;
      n, ok := TryOrPark(w, want, v, held);
      TurnMirrors(w, want, v, held, n, ok);
    }

    lemma TurnMirrors(w: FcWaiter, want: int, v: O.Side, held: int, n: int, ok: bool)
      requires want > 0 && w.ss.id in v.win && v.win[w.ss.id] == held
      requires ok <==> TakeAmount(held, v.conn, want).Some?
      requires n == if ok then TakeAmount(held, v.conn, want).value else 0
      requires tokens == v.tokens && peerConnSendWindow == v.conn - n && WindowsAre(Taken(v.win, w.ss.id, n))
      requires queue == if ok then v.queue else Park(v.queue, Entry(w.id, w.ss.id, held > 0))
      ensures Mirrors(O.TriedOrParked(v, w.id, w.ss.id, want))
    {
      assert !ok ==> Taken(v.win, w.ss.id, n) == v.win;
    }

    /** After the select, whether the writer then goes on or gives up. */
    method Resume(w: FcWaiter)
      requires Valid() && w in waiters
      modifies this`fcHead, this`fcConnBlocked, this`lists, this`queue, this`tokens, streams`fcHead, w`ready
      modifies waiters`queued, waiters`connPrev, waiters`connNext, waiters`strPrev, waiters`strNext
      ensures Valid() && !w.queued && !w.ready && queue == Drop(old(queue), {w.id}) && tokens == old(tokens) - {w.id}
    {
      FcUnpark(w);
      DrainReady(w);
    }

    /** The same as a step of the transition system. */
    method ResumeTurn(w: FcWaiter, ghost v: O.Side)
      requires Valid() && w in waiters && Mirrors(v)
      modifies this`fcHead, this`fcConnBlocked, this`lists, this`queue, this`tokens, streams`fcHead, w`ready
      modifies waiters`queued, waiters`connPrev, waiters`connNext, waiters`strPrev, waiters`strNext
      ensures Valid() && !w.queued && Mirrors(O.Resumed(v, w.id))
    {
      Resume(w);
    }

    /** Returns credit never spent: both windows first, both wakes after. */
    method ReleaseSendCredits(s: Stream, n: int)
      requires Valid() && s in streams && IsInt32(peerConnSendWindow) && IsInt32(s.sendWindow)
      modifies this`peerConnSendWindow, s`sendWindow
      modifies this`fcHead, this`fcConnBlocked, this`lists, this`queue, streams`fcHead
      modifies waiters`queued, waiters`connPrev, waiters`connNext, waiters`strPrev, waiters`strNext, waiters`ready, this`tokens
      ensures Valid()
      ensures n <= 0 ==> queue == old(queue) && tokens == old(tokens) && peerConnSendWindow == old(peerConnSendWindow) && s.sendWindow == old(s.sendWindow)
      ensures n > 0 ==> peerConnSendWindow == Min(old(peerConnSendWindow) + n, MAX_WINDOW)
      ensures n > 0 ==> s.sendWindow == Min(old(s.sendWindow) + n, MAX_WINDOW)
      ensures n > 0 ==> queue == After(After(old(queue), Wake.Stream(s.id)), Conn)
      ensures n > 0 ==> tokens == old(tokens) + Woken(old(queue), Wake.Stream(s.id)) + Woken(After(old(queue), Wake.Stream(s.id)), Conn)
    {
      if n > 0 {
        ReturnCredits(s, n);
      }
    }

    method ReturnCredits(s: Stream, n: int)
      requires Valid() && n > 0 && s in streams && IsInt32(peerConnSendWindow) && IsInt32(s.sendWindow)
      modifies this`peerConnSendWindow, s`sendWindow
      modifies this`fcHead, this`fcConnBlocked, this`lists, this`queue, streams`fcHead
      modifies waiters`queued, waiters`connPrev, waiters`connNext, waiters`strPrev, waiters`strNext, waiters`ready, this`tokens
      ensures Valid() && peerConnSendWindow == Min(old(peerConnSendWindow) + n, MAX_WINDOW)
      ensures s.sendWindow == Min(old(s.sendWindow) + n, MAX_WINDOW)
      ensures queue == After(After(old(queue), Wake.Stream(s.id)), Conn)
      ensures tokens == old(tokens) + Woken(old(queue), Wake.Stream(s.id)) + Woken(After(old(queue), Wake.Stream(s.id)), Conn)
    {
      ghost var q, t := queue, tokens;
      Refund(s, n);
      WakeBoth(s, q, t);
    }

    method WakeBoth(s: Stream, ghost q: seq<Entry<nat, nat>>, ghost t: set<nat>)
      requires Valid() && s in streams && queue == q && tokens == t
      modifies this`fcHead, this`fcConnBlocked, this`lists, this`queue, streams`fcHead
      modifies waiters`queued, waiters`connPrev, waiters`connNext, waiters`strPrev, waiters`strNext, waiters`ready, this`tokens
      ensures Valid() && queue == After(After(q, Wake.Stream(s.id)), Conn)
      ensures tokens == t + Woken(q, Wake.Stream(s.id)) + Woken(After(q, Wake.Stream(s.id)), Conn)
    {
      FcWakeStream(s);
      FcWakeConn();
    }

    method Refund(s: Stream, n: int)
      requires Valid() && n > 0 && IsInt32(peerConnSendWindow) && IsInt32(s.sendWindow)
      modifies this`peerConnSendWindow, s`sendWindow
      ensures Valid() && peerConnSendWindow == Min(old(peerConnSendWindow) + n, MAX_WINDOW)
      ensures s.sendWindow == Min(old(s.sendWindow) + n, MAX_WINDOW)
    {
      peerConnSendWindow := AddWindowSaturating(peerConnSendWindow, n);
      s.sendWindow := AddWindowSaturating(s.sendWindow, n);
    }

    /** A WINDOW_UPDATE on stream 0: refused when it would pass 2^31-1. */
    method OnConnWindowUpdate(increment: nat) returns (overflow: bool)
      requires Valid() && 0 <= peerConnSendWindow <= MAX_WINDOW
      modifies this`peerConnSendWindow
      modifies this`fcHead, this`fcConnBlocked, this`lists, this`queue, streams`fcHead
      modifies waiters`queued, waiters`connPrev, waiters`connNext, waiters`strPrev, waiters`strNext, waiters`ready, this`tokens
      ensures Valid() && 0 <= peerConnSendWindow <= MAX_WINDOW
      ensures overflow <==> old(peerConnSendWindow) + increment > MAX_WINDOW
      ensures overflow ==> peerConnSendWindow == old(peerConnSendWindow) && queue == old(queue) && tokens == old(tokens)
      ensures !overflow ==> peerConnSendWindow == old(peerConnSendWindow) + increment
      ensures !overflow ==> queue == After(old(queue), Conn) && tokens == old(tokens) + Woken(old(queue), Conn)
    {
      var newVal := peerConnSendWindow + increment;
      if newVal > MAX_WINDOW {
        return true;
      }
      peerConnSendWindow := ToInt32(newVal);
      FcWakeConn();
      return false;
    }
  }
}
