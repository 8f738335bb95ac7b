/** The stream table against a table that keeps no counters: it knows the streams that are
    live and the identifiers that were used, and counts them when it has to. */
module TableLaw {
  import opened Windows
  import opened StreamTable

  /** pushes: reservations made so far. */
  datatype Census = Census(live: set<StreamId>, used: set<StreamId>, pushes: nat, failed: bool)

  const NONE := Census({}, {}, 0, false)

  /** Sections 5.1.1 and 5.1.2 of RFC 9113: a client opens streams with odd identifiers
      above all it has used, and as many at a time as the server allows; a server
      pushes on even ones, within what the client allows. */
  ghost function CensusStep(t: Census, op: Op, limit: int): Census {
    match op
    case Headers(id) =>
      if t.failed || id in t.live then t
      else if id % 2 == 0 || exists u :: u in t.used && id <= u then t.(failed := true)
      else if limit <= 0 || |OddPart(t.live)| < limit then t.(used := t.used + {id}, live := t.live + {id})
      else t.(used := t.used + {id})
    case Push(peerLimit) =>
      if !t.failed && (peerLimit == NO_STREAM_LIMIT || |EvenPart(t.live)| < peerLimit) then
        t.(live := t.live + {2 + 2 * t.pushes}, pushes := t.pushes + 1)
      else t
    case Done(id) => t.(live := t.live - {id})
    case _ => t
  }

  ghost function CensusRun(ops: seq<Op>, limit: int): Census {
    if ops == [] then NONE else CensusStep(CensusRun(ops[..|ops| - 1], limit), ops[|ops| - 1], limit)
  }

  /** n is the highest of the identifiers; 0 if there are none. */
  ghost predicate Highest(used: set<StreamId>, n: nat) {
    (forall u | u in used :: u <= n) && (n in used || (n == 0 && used == {}))
  }

  ghost predicate Matches(t: Census, c: Conn) {
    && t.live == c.ids.live && t.failed == c.failed
    && c.ids.nextPush == 2 + 2 * t.pushes && Highest(t.used, c.ids.maxClient) && (forall u | u in t.used :: u % 2 == 1)
  }

  lemma OpeningMatches(t: Census, c: Conn, id: StreamId, limit: int)
    requires Sound(c.ids) && Matches(t, c) && !c.failed && id !in t.live && id % 2 == 1 && id > c.ids.maxClient
    ensures Matches(CensusStep(t, Headers(id), limit), Step(c, Headers(id), limit))
  {
  }

  lemma UsedMatches(t: Census, c: Conn, id: StreamId, limit: int)
    requires Matches(t, c) && !c.failed && id !in t.live && (id % 2 == 0 || id <= c.ids.maxClient)
    ensures Matches(CensusStep(t, Headers(id), limit), Step(c, Headers(id), limit))
  {
    if id % 2 == 1 {
      assert c.ids.maxClient in t.used;
    }
  }

  lemma HeadersMatch(t: Census, c: Conn, id: StreamId, limit: int)
    requires Sound(c.ids) && Matches(t, c)
    ensures Matches(CensusStep(t, Headers(id), limit), Step(c, Headers(id), limit))
  {
    if !c.failed && id !in t.live {
      if id % 2 == 1 && id > c.ids.maxClient {
        OpeningMatches(t, c, id, limit);
      } else {
        UsedMatches(t, c, id, limit);
      }
    }
  }

  lemma PushMatches(t: Census, c: Conn, peerLimit: int)
    requires Sound(c.ids) && Matches(t, c) && c.ids.nextPush + 2 < UINT32
    ensures Matches(CensusStep(t, Push(peerLimit), 0), Step(c, Push(peerLimit), 0))
  {
    PushCountFits(c.ids);
  }

  /** Over every run the table with its counters holds the same streams, has used the same
      identifiers and fails at the same frame as the one that counts. */
  lemma {:induction false} CountersRefinePopulation(ops: seq<Op>, limit: int)
    requires WireIds(ops) && FewPushes(ops)
    ensures Matches(CensusRun(ops, limit), Exec(ops, limit))
  {
    if ops != [] {
      var n := |ops| - 1;
      PrefixRun(ops, n);
      CountersRefinePopulation(ops[..n], limit);
      RunKeepsInv(ops[..n], limit);
      var t, c := CensusRun(ops[..n], limit), Exec(ops[..n], limit);
      match ops[n] {
        case Headers(id) => HeadersMatch(t, c, id, limit);
        case Push(peerLimit) => PushMatches(t, c, peerLimit);
        case _ =>
      }
    }
  }

  /** After every run, a HEADERS frame that opens a stream registers it if and only if
      there is no limit or fewer client streams than that are live; its identifier is
      used up either way. */
  lemma HeadersRegisterIff(ops: seq<Op>, id: StreamId, limit: int)
    requires WireIds(ops) && FewPushes(ops) && !Exec(ops, limit).failed
    requires id % 2 == 1 && id > Exec(ops, limit).ids.maxClient
    ensures var c, after := Exec(ops, limit), Step(Exec(ops, limit), Headers(id), limit);
      && !after.failed && after.ids.maxClient == id
      && (id in after.ids.live <==> limit <= 0 || |OddPart(c.ids.live)| < limit)
      && after.ids.live - {id} == c.ids.live
  {
    RunKeepsInv(ops, limit);
    assert id !in Exec(ops, limit).ids.live;
  }

  lemma PushOpens(c: Conn, peerLimit: int, limit: int)
    requires Sound(c.ids) && !c.failed
    ensures Step(c, Push(peerLimit), limit).ids.live
         == if peerLimit == NO_STREAM_LIMIT || |EvenPart(c.ids.live)| < peerLimit then c.ids.live + {c.ids.nextPush} else c.ids.live
    ensures c.ids.nextPush !in c.ids.live
  {
    PushCountFits(c.ids);
  }

  /** After every run, a push registers a stream, the next even identifier, if and only if
      the client sets no limit or fewer pushed streams than that are live. */
  lemma PushRegistersIff(ops: seq<Op>, peerLimit: int, limit: int)
    requires WireIds(ops) && FewPushes(ops) && !Exec(ops, limit).failed
    ensures var c, after := Exec(ops, limit), Step(Exec(ops, limit), Push(peerLimit), limit);
      && after.ids.live == (if peerLimit == NO_STREAM_LIMIT || |EvenPart(c.ids.live)| < peerLimit then c.ids.live + {c.ids.nextPush} else c.ids.live)
      && c.ids.nextPush !in c.ids.live
  {
    RunKeepsInv(ops, limit);
    PushOpens(Exec(ops, limit), peerLimit, limit);
  }
}
