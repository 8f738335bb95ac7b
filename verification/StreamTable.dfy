/** The stream table of a connection: identifier space, live population and the
    counts kept of it, with the GOAWAY identifiers derived from it. The class is
    the source's streamTable; the functions on Ids specify it, and the theorems
    are about every sequence of operations on them. */
module StreamTable {
  import opened Windows

  const NO_STREAM_LIMIT: int := 0xFFFF_FFFF
  const MAX_STREAM_ID: int := 0x7FFF_FFFF

  type StreamId = nat

  // ---------------------------------------------------------------- values

  /** maxClient, nextPush, nClient and nPush beside the set of live identifiers.
      nextPush is a 32-bit counter and wraps. */
  datatype Ids = Ids(live: set<StreamId>, maxClient: nat, nextPush: nat, nClient: int, nPush: int)

  const START := Ids({}, 0, 2, 0, 0)

  predicate Idle(t: Ids, id: StreamId) {
    if id % 2 == 1 then id > t.maxClient else id >= t.nextPush
  }

  predicate ValidClientId(t: Ids, id: StreamId) {
    id % 2 == 1 && id > t.maxClient
  }

  predicate Refuses(t: Ids, limit: int) {
    limit > 0 && t.nClient >= limit
  }

  /** The identifier is consumed whether or not there was room. */
  function Admit(t: Ids, id: StreamId, limit: int): Ids {
    var burnt := if id > t.maxClient then t.(maxClient := id) else t;
    if Refuses(t, limit) then burnt
    else burnt.(live := t.live + {id}, nClient := t.nClient + 1)
  }

  predicate PushRefused(t: Ids, limit: int) {
    limit != NO_STREAM_LIMIT && t.nPush % UINT32 >= limit
  }

  function ReservePush(t: Ids, limit: int): Ids {
    if PushRefused(t, limit) then t
    else t.(live := t.live + {t.nextPush}, nextPush := (t.nextPush + 2) % UINT32, nPush := t.nPush + 1)
  }

  function Release(t: Ids, id: StreamId): Ids {
    if id !in t.live then t
    else if id % 2 == 1 then t.(live := t.live - {id}, nClient := t.nClient - 1)
    else t.(live := t.live - {id}, nPush := t.nPush - 1)
  }

  // ---------------------------------------------------------------- one step

  function OddPart(live: set<StreamId>): set<StreamId> { set i | i in live && i % 2 == 1 }

  function EvenPart(live: set<StreamId>): set<StreamId> { set i | i in live && i % 2 == 0 }

  /** The counts are the populations, live means not idle, and pushes stay even. */
  ghost predicate Sound(t: Ids) {
    && t.nClient == |OddPart(t.live)| && t.nPush == |EvenPart(t.live)|
    && (forall i :: i in t.live ==> !Idle(t, i))
    && t.nextPush % 2 == 0 && t.nextPush < UINT32
    && (t.maxClient == 0 || t.maxClient % 2 == 1)
  }

  /** Admission keeps the table sound exactly when it refuses a fresh odd
      identifier or registers one: a live identifier admitted again, as the h2c
      upgrade may do for stream 1, is counted twice. */
  lemma AdmitSoundIff(t: Ids, id: StreamId, limit: int)
    requires Sound(t)
    ensures Sound(Admit(t, id, limit)) <==>
      if Refuses(t, limit) then id % 2 == 1 || id <= t.maxClient
      else id % 2 == 1 && id !in t.live
  {
    var t' := Admit(t, id, limit);
    if !Refuses(t, limit) {
      if id in t.live {
        assert t'.live == t.live;
      } else if id % 2 == 1 {
        assert OddPart(t'.live) == OddPart(t.live) + {id};
        assert EvenPart(t'.live) == EvenPart(t.live);
      } else {
        assert OddPart(t'.live) == OddPart(t.live);
      }
    }
  }

  /** The upgrade path: stream 1 already opened by a pipelined HEADERS. */
  lemma UpgradeMayCountTwice()
    ensures var t := Admit(START, 1, 100);
      Sound(t) && !Sound(Admit(t, 1, 100)) && Admit(t, 1, 100).nClient == 2 && Admit(t, 1, 100).live == {1}
  {
    var t := Admit(START, 1, 100);
    assert t.live == {1} && OddPart(t.live) == {1} && EvenPart(t.live) == {};
    AdmitSoundIff(t, 1, 100);
    assert Admit(t, 1, 100).live == {1};
  }

  lemma PushWraps(next: nat)
    requires next % 2 == 0 && next < UINT32
    ensures (next + 2) % UINT32 == if next + 2 < UINT32 then next + 2 else 0
  {
  }

  lemma PushedPopulation(live: set<StreamId>, id: StreamId)
    requires id % 2 == 0 && id !in live
    ensures OddPart(live + {id}) == OddPart(live) && |EvenPart(live + {id})| == |EvenPart(live)| + 1
  {
    assert EvenPart(live + {id}) == EvenPart(live) + {id};
  }

  /** A reservation keeps the table sound exactly while the 32-bit counter does
      not wrap; the wrap makes every pushed identifier idle again. */
  lemma PushSoundIff(t: Ids, limit: int)
    requires Sound(t) && 2 <= t.nextPush
    ensures Sound(ReservePush(t, limit)) <==> PushRefused(t, limit) || t.nextPush + 2 < UINT32
  {
    var t' := ReservePush(t, limit);
    if !PushRefused(t, limit) {
      PushWraps(t.nextPush);
      PushedPopulation(t.live, t.nextPush);
      if t.nextPush + 2 >= UINT32 {
        assert t.nextPush in t'.live && Idle(t', t.nextPush);
      }
    }
  }

  lemma {:induction false} EvensBelow(ids: set<StreamId>, n: nat)
    requires forall i | i in ids :: i % 2 == 0 && i < 2 * n
    ensures |ids| <= n
    decreases n
  {
    if n == 0 {
      assert ids == {};
    } else {
      var rest := ids - {2 * (n - 1)};
      EvensBelow(rest, n - 1);
      assert ids <= rest + {2 * (n - 1)};
      if 2 * (n - 1) in ids {
        assert ids == rest + {2 * (n - 1)};
      } else {
        assert ids == rest;
      }
    }
  }

  /** The count of pushed streams always fits its 32 bits. */
  lemma PushCountFits(t: Ids)
    requires Sound(t)
    ensures 0 <= t.nPush < UINT32
  {
    EvensBelow(EvenPart(t.live), t.nextPush / 2);
  }

  lemma ReleaseSound(t: Ids, id: StreamId)
    requires Sound(t)
    ensures Sound(Release(t, id)) && id !in Release(t, id).live
  {
    var t' := Release(t, id);
    if id in t.live {
      if id % 2 == 1 {
        assert OddPart(t'.live) == OddPart(t.live) - {id} && id in OddPart(t.live);
        assert EvenPart(t'.live) == EvenPart(t.live);
      } else {
        assert OddPart(t'.live) == OddPart(t.live);
        assert EvenPart(t'.live) == EvenPart(t.live) - {id} && id in EvenPart(t.live);
      }
    }
  }

  // ---------------------------------------------------------------- every run

  /** GoAwayGraceful, GoAway, and sendGoAway on a connection error. */
  datatype Sender = Graceful | Plain | OnError

  /** What reaches the table from outside: a HEADERS frame, a push with the peer's
      limit, the end of a stream, and the GOAWAY senders. These take two steps each: Ask
      claims the right to announce and Tell writes under wmu; CloseBegin marks the
      connection closed and CloseTell writes. Others act in between. */
  datatype Op =
    | Headers(id: StreamId)
    | Push(peerLimit: int)
    | Done(id: StreamId)
    | Ask(who: Sender)
    | Tell
    | CloseBegin
    | CloseTell

  /** failed: a connection error was raised. asking: who has asked and not yet told.
      sent: the last-stream-id of every GOAWAY handed to the framer, oldest first. */
  datatype Conn = Conn(
    ids: Ids, failed: bool, requested: bool, asking: Option<Sender>, closed: bool, closing: bool, clamp: nat, sent: seq<nat>)

  const NEW_CONN := Conn(START, false, false, None, false, false, MAX_STREAM_ID, [])

  /** clampGoAwayID and the write that follows it. */
  function Announce(c: Conn, id: nat): Conn {
    var v := if id > c.clamp then c.clamp else id;
    c.(clamp := v, sent := c.sent + [v])
  }

  function Step(c: Conn, op: Op, limit: int): Conn {
    match op
    case Headers(id) =>
      if c.failed || id in c.ids.live then c
      else if !ValidClientId(c.ids, id) then c.(failed := true)
      else c.(ids := Admit(c.ids, id, limit))
    case Push(peerLimit) => if c.failed then c else c.(ids := ReservePush(c.ids, peerLimit))
    case Done(id) => c.(ids := Release(c.ids, id))
    case Ask(who) => if c.requested then c else c.(requested := true, asking := Some(who))
    case Tell =>
      if c.asking.None? then c
      else if c.closed then c.(asking := None)
      else Announce(c.(asking := None), if c.asking.value.Graceful? then MAX_STREAM_ID else c.ids.maxClient)
    case CloseBegin => if c.closed then c else c.(closed := true, closing := true)
    case CloseTell => if !c.closing then c else Announce(c.(closing := false, requested := true), c.ids.maxClient)
  }

  function Exec(ops: seq<Op>, limit: int): Conn {
    if ops == [] then NEW_CONN else Step(Exec(ops[..|ops| - 1], limit), ops[|ops| - 1], limit)
  }

  function Pushes(ops: seq<Op>): nat {
    if ops == [] then 0 else Pushes(ops[..|ops| - 1]) + (if ops[|ops| - 1].Push? then 1 else 0)
  }

  /** Fewer pushes than it takes to wrap the 32-bit counter. */
  predicate FewPushes(ops: seq<Op>) { 2 + 2 * Pushes(ops) < UINT32 }

  predicate WireIds(ops: seq<Op>) {
    forall i :: 0 <= i < |ops| && ops[i].Headers? ==> ops[i].id <= MAX_STREAM_ID
  }

  ghost predicate Inv(c: Conn, limit: int, pushes: nat) {
    && Sound(c.ids) && 2 <= c.ids.nextPush <= 2 + 2 * pushes
    && (limit > 0 ==> c.ids.nClient <= limit)
    && c.ids.maxClient <= MAX_STREAM_ID
    && Announcements(c)
  }

  ghost predicate Announcements(c: Conn) {
    && c.clamp == Least(c.sent) && (c.clamp == 0 || c.clamp % 2 == 1)
    && (forall i :: 0 <= i < |c.sent| ==> (c.sent[i] == 0 || c.sent[i] % 2 == 1) && c.clamp <= c.sent[i])
    && (forall i, j :: 0 <= i < j < |c.sent| ==> c.sent[j] <= c.sent[i])
  }

  /** The last identifier announced; before that, the largest there is. */
  function Least(sent: seq<nat>): nat { if sent == [] then MAX_STREAM_ID else sent[|sent| - 1] }

  lemma StepKeepsInv(c: Conn, op: Op, limit: int, pushes: nat)
    requires Inv(c, limit, pushes)
    requires op.Headers? ==> op.id <= MAX_STREAM_ID
    requires op.Push? ==> 2 + 2 * (pushes + 1) < UINT32
    ensures Inv(Step(c, op, limit), limit, if op.Push? then pushes + 1 else pushes)
  {
    IdsKept(c, op, limit, pushes);
    SentKept(c, op, limit, pushes);
  }

  lemma IdsKept(c: Conn, op: Op, limit: int, pushes: nat)
    requires Inv(c, limit, pushes)
    requires op.Headers? ==> op.id <= MAX_STREAM_ID
    requires op.Push? ==> 2 + 2 * (pushes + 1) < UINT32
    ensures var t := Step(c, op, limit).ids;
      && Sound(t) && 2 <= t.nextPush <= 2 + 2 * (if op.Push? then pushes + 1 else pushes)
      && (limit > 0 ==> t.nClient <= limit) && t.maxClient <= MAX_STREAM_ID
  {
    match op {
      case Headers(id) => AdmitSoundIff(c.ids, id, limit);
      case Push(peerLimit) => PushSoundIff(c.ids, peerLimit);
      case Done(id) => ReleaseSound(c.ids, id);
      case _ =>
    }
  }

  lemma SentKept(c: Conn, op: Op, limit: int, pushes: nat)
    requires Inv(c, limit, pushes)
    ensures Announcements(Step(c, op, limit))
  {
  }

  /** An identifier once used stays used, and once gone stays gone. */
  lemma StepNeverReuses(c: Conn, op: Op, limit: int, pushes: nat, id: StreamId)
    requires Inv(c, limit, pushes) && !Idle(c.ids, id)
    requires op.Push? ==> 2 + 2 * (pushes + 1) < UINT32
    ensures !Idle(Step(c, op, limit).ids, id)
    ensures id !in c.ids.live ==> id !in Step(c, op, limit).ids.live
  {
  }

  lemma {:induction false} RunKeepsInv(ops: seq<Op>, limit: int)
    requires WireIds(ops) && FewPushes(ops)
    ensures Inv(Exec(ops, limit), limit, Pushes(ops))
  {
    if ops == [] {
      assert OddPart({}) == {} && EvenPart({}) == {};
    } else {
      var before := ops[..|ops| - 1];
      assert WireIds(before);
      RunKeepsInv(before, limit);
      StepKeepsInv(Exec(before, limit), ops[|ops| - 1], limit, Pushes(before));
    }
  }

  lemma {:induction false} FewerPushes(ops: seq<Op>, k: nat)
    requires k <= |ops|
    ensures Pushes(ops[..k]) <= Pushes(ops)
  {
    if k == |ops| {
      assert ops[..k] == ops;
    } else {
      assert ops[..|ops| - 1][..k] == ops[..k];
      FewerPushes(ops[..|ops| - 1], k);
    }
  }

  lemma PrefixRun(ops: seq<Op>, k: nat)
    requires k <= |ops| && WireIds(ops) && FewPushes(ops)
    ensures WireIds(ops[..k]) && FewPushes(ops[..k])
  {
    FewerPushes(ops, k);
  }

  /** An identifier once used is used for ever. */
  lemma {:induction false} NeverIdleAgain(ops: seq<Op>, k: nat, limit: int, id: StreamId)
    requires k <= |ops| && WireIds(ops) && FewPushes(ops)
    requires !Idle(Exec(ops[..k], limit).ids, id)
    ensures !Idle(Exec(ops, limit).ids, id)
  {
    if k == |ops| {
      assert ops[..k] == ops;
    } else {
      var n := |ops| - 1;
      PrefixRun(ops, n);
      assert ops[..n][..k] == ops[..k];
      NeverIdleAgain(ops[..n], k, limit, id);
      RunKeepsInv(ops[..n], limit);
      StepNeverReuses(Exec(ops[..n], limit), ops[n], limit, Pushes(ops[..n]), id);
    }
  }

  /** Once released, an identifier is never registered again. */
  lemma {:induction false} NeverRegisteredAgain(ops: seq<Op>, k: nat, m: nat, limit: int, id: StreamId)
    requires k <= m <= |ops| && WireIds(ops) && FewPushes(ops)
    requires id in Exec(ops[..k], limit).ids.live && id !in Exec(ops[..m], limit).ids.live
    ensures id !in Exec(ops, limit).ids.live
  {
    if m == |ops| {
      assert ops[..m] == ops;
    } else {
      var n := |ops| - 1;
      PrefixRun(ops, n);
      assert ops[..n][..k] == ops[..k] && ops[..n][..m] == ops[..m];
      NeverRegisteredAgain(ops[..n], k, m, limit, id);
      PrefixRun(ops, k);
      RunKeepsInv(ops[..k], limit);
      NeverIdleAgain(ops[..n], k, limit, id);
      RunKeepsInv(ops[..n], limit);
      StepNeverReuses(Exec(ops[..n], limit), ops[n], limit, Pushes(ops[..n]), id);
    }
  }

  /** What every run keeps of the identifier space. */
  lemma IdentifierSpace(ops: seq<Op>, limit: int)
    requires WireIds(ops) && FewPushes(ops)
    ensures var t := Exec(ops, limit).ids;
      && t.nClient == |OddPart(t.live)| && t.nPush == |EvenPart(t.live)|
      && (limit > 0 ==> t.nClient <= limit)
      && (forall i :: i in t.live ==> !Idle(t, i))
  {
    RunKeepsInv(ops, limit);
  }

  // ---------------------------------------------------------------- the table itself

  /** What the table touches of a ServerStream. */
  class ServerStream {
    var id: nat
    var sendWindow: int

    constructor (id: nat)
      ensures this.id == id && sendWindow == 0
    {
      this.id, sendWindow := id, 0;
    }
  }

  /** One stream's window after a retroactive delta: left alone on overflow. */
  function Adjusted(win: int, delta: int): int {
    if win + delta > MAX_WINDOW then win else ToInt32(win + delta)
  }

  /** Every method runs under the table lock. */
  class Table {
    var streams: map<nat, ServerStream>
    var maxClient: nat
    var nextPush: nat
    var nClient: int
    var nPush: int

    ghost function Abs(): Ids
      reads this
    {
      Ids(streams.Keys, maxClient, nextPush, nClient, nPush)
    }

    /** Each entry is filed under its own identifier, so no two are the same object. */
    ghost predicate Filed()
      reads this, streams.Values`id
    {
      forall i :: i in streams ==> streams[i].id == i
    }

    constructor ()
      ensures Abs() == START && streams == map[]
    {
      streams, maxClient, nextPush, nClient, nPush := map[], 0, 2, 0, 0;
    }

    /** The live stream of that identifier. */
    method Lookup(id: nat) returns (s: ServerStream?)
      requires Filed()
      ensures s != null <==> id in Abs().live
      ensures s != null ==> s in streams.Values && s.id == id
    {
      s := if id in streams then streams[id] else null;
    }

    method ValidateClientId(id: nat) returns (ok: bool)
      ensures ok <==> ValidClientId(Abs(), id)
    {
      if id % 2 == 0 {
        return false;
      }
      ok := !(id <= maxClient);
    }

    method AdmitClient(id: nat, s: ServerStream, limit: int, peerWindow: nat) returns (ok: bool)
      requires Filed() && s.id == id && peerWindow <= MAX_WINDOW
      modifies this, s`sendWindow
      ensures Filed() && Abs() == Admit(old(Abs()), id, limit)
      ensures ok <==> !Refuses(old(Abs()), limit)
      ensures Sound(old(Abs())) ==> (ok <==> limit <= 0 || |OddPart(old(streams.Keys))| < limit)
      ensures ok ==> streams == old(streams)[id := s] && s.sendWindow == peerWindow
      ensures !ok ==> streams == old(streams) && s.sendWindow == old(s.sendWindow)
    {
      var initial := peerWindow;
      if id > maxClient {
        maxClient := id;
      }
      if limit > 0 && nClient >= limit {
        return false;
      }
      s.sendWindow := ToInt32(initial);
      streams := streams[id := s];
      nClient := nClient + 1;
      return true;
    }

    method ReservePushed(s: ServerStream, limit: int, peerWindow: nat) returns (id: nat, ok: bool)
      requires Filed() && s !in streams.Values && peerWindow <= MAX_WINDOW
      modifies this, s
      ensures Filed() && Abs() == ReservePush(old(Abs()), limit)
      ensures ok <==> !PushRefused(old(Abs()), limit)
      ensures Sound(old(Abs())) ==> (ok <==> limit == NO_STREAM_LIMIT || |EvenPart(old(streams.Keys))| < limit)
      ensures ok ==> id == old(nextPush) && s.id == id && s.sendWindow == peerWindow && streams == old(streams)[id := s]
      ensures !ok ==> id == 0 && streams == old(streams) && unchanged(s)
    {
      if Sound(Abs()) {
        PushCountFits(Abs());
      }
      if limit != NO_STREAM_LIMIT && nPush % UINT32 >= limit {
        return 0, false;
      }
      var initial := peerWindow;
      id := nextPush;
      nextPush := (nextPush + 2) % UINT32;
      s.id := id;
      s.sendWindow := ToInt32(initial);
      streams := streams[id := s];
      nPush := nPush + 1;
      ok := true;
    }

    method ReleaseStream(id: nat) returns (s: ServerStream?)
      requires Filed()
      modifies this
      ensures Filed() && Abs() == Release(old(Abs()), id)
      ensures streams == old(streams) - {id}
      ensures s == if id in old(streams) then old(streams)[id] else null
    {
      if id !in streams {
        return null;
      }
      s := streams[id];
      streams := streams - {id};
      if id % 2 == 1 {
        nClient := nClient - 1;
      } else {
        nPush := nPush - 1;
      }
    }

    /** The retroactive walk of section 6.9.2 of RFC 9113: every live stream is
        moved by the same delta, once, whatever order the map is walked in. */
    method ApplyInitialWindow(oldWin: nat, newWin: nat) returns (err: bool)
      requires Filed()
      modifies streams.Values`sendWindow
      ensures forall i :: i in streams ==>
        (streams[i].sendWindow == if oldWin == newWin then old(streams[i].sendWindow) else Adjusted(old(streams[i].sendWindow), newWin - oldWin))
      ensures forall i :: i in streams && IsInt32(old(streams[i].sendWindow) + (newWin - oldWin)) ==>
        streams[i].sendWindow == old(streams[i].sendWindow) + (newWin - oldWin)
      ensures forall i :: i in streams && old(streams[i].sendWindow) + (newWin - oldWin) > MAX_WINDOW && oldWin != newWin ==>
        streams[i].sendWindow == old(streams[i].sendWindow)
      ensures err <==> oldWin != newWin && exists i :: i in streams && old(streams[i].sendWindow) + (newWin - oldWin) > MAX_WINDOW
    {
      if oldWin == newWin {
        return false;
      }
      var delta := newWin - oldWin;
      err := false;
      var todo := streams.Keys;
      while todo != {}
        invariant todo <= streams.Keys
        invariant forall i :: i in streams ==>
          (streams[i].sendWindow == if i in todo then old(streams[i].sendWindow) else Adjusted(old(streams[i].sendWindow), delta))
        invariant err <==> exists i :: i in streams && i !in todo && old(streams[i].sendWindow) + delta > MAX_WINDOW
        decreases todo
      {
        var k :| k in todo;
        var st := streams[k];
        if st.sendWindow + delta > MAX_WINDOW {
          err := true;
        } else {
          st.sendWindow := ToInt32(st.sendWindow + delta);
        }
        todo := todo - {k};
      }
    }

    /** Teardown hands back every stream that was live, once. */
    method Drain() returns (all: seq<ServerStream>)
      requires Filed()
      modifies this
      ensures Abs() == old(Abs()).(live := {}, nClient := 0, nPush := 0)
      ensures |all| == |old(streams)|
      ensures forall i :: i in old(streams) ==> old(streams)[i] in all
      ensures forall s :: s in all ==> s in old(streams).Values
    {
      all := [];
      while streams != map[]
        invariant streams.Keys <= old(streams).Keys && Filed()
        invariant forall i :: i in streams ==> streams[i] == old(streams)[i]
        invariant |all| + |streams| == |old(streams)|
        invariant forall i :: i in old(streams) && i !in streams ==> old(streams)[i] in all
        invariant forall s :: s in all ==> s in old(streams).Values
        invariant maxClient == old(maxClient) && nextPush == old(nextPush)
        decreases streams.Keys
      {
        assert streams.Keys != {};
        var k :| k in streams.Keys;
        all := all + [streams[k]];
        streams := streams - {k};
      }
      nClient, nPush := 0, 0;
    }
  }
}
