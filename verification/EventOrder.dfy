/** What a stream's events look like from the application's side, over every run of
    the reader in Inbound. */
module EventOrder {
  import opened Windows
  import opened Inbound

  predicate Ends(e: Event) { !e.Reset? && e.end }

  predicate Finished(log: seq<Event>) { log != [] && Ends(log[|log| - 1]) }

  /** A prefix of Headers Data* Trailers?, in which the end comes last or not yet. */
  predicate Ordered(log: seq<Event>) {
    && (log != [] ==> log[0].Headers?)
    && (forall i :: 0 < i < |log| ==> log[i].Data? || (log[i].Trailers? && log[i].end))
    && (forall i :: 0 <= i < |log| - 1 ==> !Ends(log[i]))
  }

  function Body(log: seq<Event>): seq<Byte> {
    if log == [] then []
    else Body(log[..|log| - 1]) + if log[|log| - 1].Data? then log[|log| - 1].data else []
  }

  /** The upgrade puts a new stream in this place. */
  predicate Replaces(x: Input, id: StreamId) { x.Seed? && !x.admission.AtLimit? && id == 1 }

  /** What one more input adds to the DATA octets a stream has accepted: a DATA frame
      is accepted while the stream is registered and its request is open. */
  function Taken(c: Conn, x: Input, id: StreamId, seen: seq<Byte>): seq<Byte> {
    if Replaces(x, id) then []
    else if x.DataFrame? && x.id == id && Live(c, id) && !c.streams[id].ended then seen + x.data
    else seen
  }

  /** The DATA octets a stream has accepted over a run. */
  function Accepted(cfg: Config, run: seq<Input>, id: StreamId): seq<Byte> {
    if run == [] then []
    else Taken(Exec(cfg, run[..|run| - 1]).c, run[|run| - 1], id, Accepted(cfg, run[..|run| - 1], id))
  }

  predicate PendingOn(c: Conn, id: StreamId) {
    c.pending.Some? && c.pending.value.id == id && !c.pending.value.discard
  }

  /** What holds of a stream that has not been reset, released or not. waiting: its
      first header block is still open. seen: the DATA octets it accepted. */
  predicate StreamOk(s: Stream, waiting: bool, seen: seq<Byte>) {
    !s.reset ==>
      && Ordered(s.log) && Body(s.log) == seen && (s.ended <==> Finished(s.log))
      && (s.live ==> (s.recvd <==> s.log != []) && (!s.recvd ==> waiting))
  }

  ghost predicate StreamsOk(c: Conn, seen: StreamId -> seq<Byte>) {
    forall id | id in c.streams :: id % 2 == 1 && id <= c.maxClient && StreamOk(c.streams[id], PendingOn(c, id), seen(id))
  }

  ghost predicate UnknownSilent(c: Conn, seen: StreamId -> seq<Byte>) {
    forall id: StreamId | id !in c.streams :: seen(id) == []
  }

  /** An open block of a live stream knows whether it is a trailer section; a stream that
      has ended, as the upgrade makes stream 1, takes neither. */
  predicate TrailerKnown(c: Conn) {
    c.pending.Some? && Live(c, c.pending.value.id) && !c.pending.value.discard ==>
      var s, trailer := c.streams[c.pending.value.id], c.pending.value.trailer;
      (trailer ==> s.recvd) && (!s.ended ==> trailer == s.recvd)
  }

  /** seen: the octets accepted so far, by stream. */
  ghost predicate OrderInv(c: Conn, seen: StreamId -> seq<Byte>) {
    StreamsOk(c, seen) && UnknownSilent(c, seen) && TrailerKnown(c)
  }

  ghost predicate Takes(c: Conn, x: Input, seen: StreamId -> seq<Byte>, more: StreamId -> seq<Byte>) {
    forall id: StreamId :: more(id) == Taken(c, x, id, seen(id))
  }

  lemma BodySnoc(log: seq<Event>, e: Event)
    ensures Body(log + [e]) == Body(log) + if e.Data? then e.data else []
  {
    assert (log + [e])[..|log|] == log;
  }

  lemma OrderedSnoc(log: seq<Event>, e: Event)
    requires Ordered(log) && !Finished(log) && !e.Reset?
    requires if log == [] then e.Headers? else e.Data? || (e.Trailers? && e.end)
    ensures Ordered(log + [e]) && (Finished(log + [e]) <==> e.end)
  {
    var more := log + [e];
    forall i | 0 < i < |more|
      ensures more[i].Data? || (more[i].Trailers? && more[i].end)
    {
    }
    forall i | 0 <= i < |more| - 1
      ensures !Ends(more[i])
    {
      assert more[i] == log[i];
    }
  }

  /** One more event in its place. */
  predicate Grown(log: seq<Event>, more: seq<Event>, e: Event) {
    && !e.Reset? && Ordered(more) && more != [] && (Finished(more) <==> e.end)
    && Body(more) == Body(log) + if e.Data? then e.data else []
  }

  lemma GrowOk(log: seq<Event>, e: Event)
    requires Ordered(log) && !Finished(log) && !e.Reset?
    requires if log == [] then e.Headers? else e.Data? || (e.Trailers? && e.end)
    ensures Grown(log, log + [e], e)
  {
    OrderedSnoc(log, e);
    BodySnoc(log, e);
  }

  /** Queueing it, or resetting the stream for want of room. */
  lemma PushOk(cfg: Config, s: Stream, e: Event)
    requires Ordered(s.log) && !Finished(s.log) && !e.Reset?
    requires if s.log == [] then e.Headers? else e.Data? || (e.Trailers? && e.end)
    ensures Push(cfg, s, e).reset || Grown(s.log, Push(cfg, s, e).log, e)
  {
    GrowOk(s.log, e);
  }

  /** r differs from c in stream id alone, which may be new. */
  predicate Touches(c: Conn, r: Conn, id: StreamId) {
    && (|| (r.streams.Keys == c.streams.Keys && r.maxClient == c.maxClient)
        || (r.streams.Keys == c.streams.Keys + {id} && id % 2 == 1 && r.maxClient == Max(c.maxClient, id)))
    && (forall k | k in c.streams && k != id :: r.streams[k] == c.streams[k])
  }

  /** A callback that touches one stream leaves the others as they were. */
  lemma OneStream(c: Conn, r: Conn, x: Input, id: StreamId, seen: StreamId -> seq<Byte>, more: StreamId -> seq<Byte>)
    requires OrderInv(c, seen) && Takes(c, x, seen, more)
    requires Touches(c, r, id)
    requires forall k | k in c.streams && k != id :: PendingOn(c, k) ==> PendingOn(r, k)
    requires (x.DataFrame? ==> x.id == id) && (x.Seed? ==> id == 1)
    requires if id in r.streams then StreamOk(r.streams[id], PendingOn(r, id), more(id)) else more(id) == []
    requires TrailerKnown(r)
    ensures OrderInv(r, more)
  {
    forall k: StreamId | k != id
      ensures more(k) == seen(k)
    {
    }
  }

  lemma DataKeepsOrder(cfg: Config, c: Conn, x: Input, seen: StreamId -> seq<Byte>, more: StreamId -> seq<Byte>)
    requires OrderInv(c, seen) && Takes(c, x, seen, more) && x.DataFrame? && Receive(cfg, c, x).err.None?
    ensures OrderInv(Receive(cfg, c, x).c, more)
  {
    var r := Receive(cfg, c, x).c;
    if Live(c, x.id) && !c.streams[x.id].ended && !c.streams[x.id].reset {
      PushOk(cfg, c.streams[x.id].(ended := x.end), Data(x.data, x.end));
    }
    OneStream(c, r, x, x.id, seen, more);
  }

  /** A stream about to receive the event of a complete block. */
  predicate Ready(s: Stream, trailer: bool, seen: seq<Byte>) {
    && s.live && s.recvd
    && (!s.reset ==> Ordered(s.log) && (s.ended <==> Finished(s.log)) && Body(s.log) == seen)
    && (!s.reset && s.recvd ==> s.ended || (trailer <==> s.log != []))
  }

  lemma DeliveredOk(cfg: Config, c: Conn, id: StreamId, fields: seq<Field>, end: bool, trailer: bool, seen: seq<Byte>)
    requires id in c.streams && Ready(c.streams[id], trailer, seen) && !c.streams[id].ended && (trailer ==> end)
    ensures var e := if trailer then Trailers(fields, end) else Headers(fields, end);
            StreamOk(Deliver(cfg, c, id, e, end).streams[id], false, seen)
  {
    var s := c.streams[id];
    if !s.reset {
      PushOk(cfg, s.(ended := end), if trailer then Trailers(fields, end) else Headers(fields, end));
    }
  }

  /** What a complete block does to its stream. */
  lemma EmittedOk(cfg: Config, c: Conn, id: StreamId, block: Block, end: bool, trailer: bool, seen: seq<Byte>)
    requires id in c.streams && Ready(c.streams[id], trailer, seen)
    requires Emit(cfg, c, id, block, end, trailer).err.None?
    ensures var r := Emit(cfg, c, id, block, end, trailer).c;
            id in r.streams && StreamOk(r.streams[id], false, seen)
  {
    if !c.streams[id].ended && (trailer ==> end) {
      var fields := cfg.decode(c.fed, block).value;
      DeliveredOk(cfg, c.(pending := None, fed := c.fed + [block]), id, fields, end, trailer, seen);
    }
  }

  lemma EmitOk(cfg: Config, c: Conn, id: StreamId, block: Block, end: bool, trailer: bool, seen: seq<Byte>)
    requires id in c.streams && Ready(c.streams[id], trailer, seen)
    requires Emit(cfg, c, id, block, end, trailer).err.None?
    ensures var r := Emit(cfg, c, id, block, end, trailer).c;
            && r.pending.None? && r.maxClient == c.maxClient && r.streams.Keys == c.streams.Keys
            && (forall k | k in c.streams && k != id :: r.streams[k] == c.streams[k])
            && StreamOk(r.streams[id], false, seen)
  {
    EmittedOk(cfg, c, id, block, end, trailer, seen);
  }

  /** A block that is not complete yet, or belongs to a refused stream. */
  lemma UnheardKeepsOrder(cfg: Config, c: Conn, x: Input, seen: StreamId -> seq<Byte>, more: StreamId -> seq<Byte>)
    requires OrderInv(c, seen) && Takes(c, x, seen, more) && x.HeadersFrame? && Receive(cfg, c, x).err.None?
    requires !x.endHeaders || (!Live(c, x.id) && !x.admitted)
    ensures OrderInv(Receive(cfg, c, x).c, more)
  {
    OneStream(c, Receive(cfg, c, x).c, x, x.id, seen, more);
  }

  lemma WholeKeepsOrder(cfg: Config, c: Conn, x: Input, seen: StreamId -> seq<Byte>, more: StreamId -> seq<Byte>)
    requires OrderInv(c, seen) && Takes(c, x, seen, more) && x.HeadersFrame? && Receive(cfg, c, x).err.None?
    requires x.endHeaders && (Live(c, x.id) || x.admitted)
    ensures OrderInv(Receive(cfg, c, x).c, more)
  {
    var trailer := Live(c, x.id) && c.streams[x.id].recvd;
    var started := if Live(c, x.id) then c else Register(c, x.id, true);
    var ready := if trailer then started else RecordFields(started, x.id);
    assert Ready(ready.streams[x.id], trailer, seen(x.id));
    EmitOk(cfg, ready, x.id, x.frag, x.end, trailer, seen(x.id));
    OneStream(c, Receive(cfg, c, x).c, x, x.id, seen, more);
  }

  lemma HeadersKeepOrder(cfg: Config, c: Conn, x: Input, seen: StreamId -> seq<Byte>, more: StreamId -> seq<Byte>)
    requires OrderInv(c, seen) && Takes(c, x, seen, more) && x.HeadersFrame? && Receive(cfg, c, x).err.None?
    ensures OrderInv(Receive(cfg, c, x).c, more)
  {
    if x.endHeaders && (Live(c, x.id) || x.admitted) {
      WholeKeepsOrder(cfg, c, x, seen, more);
    } else {
      UnheardKeepsOrder(cfg, c, x, seen, more);
    }
  }

  lemma ContinuationKeepsOrder(cfg: Config, c: Conn, x: Input, seen: StreamId -> seq<Byte>, more: StreamId -> seq<Byte>)
    requires OrderInv(c, seen) && Takes(c, x, seen, more) && x.ContinuationFrame? && Receive(cfg, c, x).err.None?
    ensures OrderInv(Receive(cfg, c, x).c, more)
  {
    var r := Receive(cfg, c, x).c;
    var p := c.pending.value;
    if x.endHeaders && !p.discard && Live(c, x.id) {
      var ready := if p.trailer then c else RecordFields(c, x.id);
      assert Ready(ready.streams[x.id], p.trailer, seen(x.id));
      EmitOk(cfg, ready, x.id, p.buf + x.frag, p.end, p.trailer, seen(x.id));
    }
    OneStream(c, r, x, x.id, seen, more);
  }

  lemma SeededOk(cfg: Config, fields: seq<Field>, waiting: bool)
    ensures StreamOk(Push(cfg, FRESH.(recvd := true), Headers(fields, true)).(ended := true), waiting, [])
  {
    PushOk(cfg, FRESH.(recvd := true), Headers(fields, true));
  }

  lemma SeedTouches(cfg: Config, c: Conn, fields: seq<Field>, admission: Admission)
    requires TrailerKnown(c)
    ensures var r := Seeded(cfg, c, fields, admission); r.pending == c.pending && Touches(c, r, 1) && TrailerKnown(r)
  {
  }

  lemma SeedKeepsOrder(cfg: Config, c: Conn, x: Input, seen: StreamId -> seq<Byte>, more: StreamId -> seq<Byte>)
    requires OrderInv(c, seen) && Takes(c, x, seen, more) && x.Seed?
    ensures OrderInv(Receive(cfg, c, x).c, more)
  {
    var r := Receive(cfg, c, x).c;
    SeededOk(cfg, x.fields, PendingOn(r, 1));
    SeedTouches(cfg, c, x.fields, x.admission);
    if x.admission.AtLimit? && 1 in c.streams {
      assert StreamOk(c.streams[1], PendingOn(c, 1), seen(1));
    }
    assert StreamOk(r.streams[1], PendingOn(r, 1), more(1));
    OneStream(c, r, x, 1, seen, more);
  }

  lemma RstKeepsOrder(cfg: Config, c: Conn, x: Input, seen: StreamId -> seq<Byte>, more: StreamId -> seq<Byte>)
    requires OrderInv(c, seen) && Takes(c, x, seen, more) && x.RstFrame? && Receive(cfg, c, x).err.None?
    ensures OrderInv(Receive(cfg, c, x).c, more)
  {
    OneStream(c, Receive(cfg, c, x).c, x, x.id, seen, more);
  }

  lemma OutsideOk(s: Stream, x: Input, waiting: bool, seen: seq<Byte>)
    requires StreamOk(s, waiting, seen)
    ensures StreamOk(Outside(s, x), waiting, seen)
  {
  }

  lemma OthersKeepOrder(cfg: Config, c: Conn, x: Input, seen: StreamId -> seq<Byte>, more: StreamId -> seq<Byte>)
    requires OrderInv(c, seen) && Takes(c, x, seen, more) && Receive(cfg, c, x).err.None?
    requires !x.DataFrame? && !x.HeadersFrame? && !x.ContinuationFrame? && !x.RstFrame? && !x.Seed?
    ensures OrderInv(Receive(cfg, c, x).c, more)
  {
    var id := if x.OtherFrame? then 0 else x.id;
    if id in c.streams {
      OutsideOk(c.streams[id], x, PendingOn(c, id), seen(id));
    }
    OneStream(c, Receive(cfg, c, x).c, x, id, seen, more);
  }

  lemma StepKeepsOrder(cfg: Config, c: Conn, x: Input, seen: StreamId -> seq<Byte>, more: StreamId -> seq<Byte>)
    requires OrderInv(c, seen) && Takes(c, x, seen, more) && Receive(cfg, c, x).err.None?
    ensures OrderInv(Receive(cfg, c, x).c, more)
  {
    if x.DataFrame? {
      DataKeepsOrder(cfg, c, x, seen, more);
    } else if x.HeadersFrame? {
      HeadersKeepOrder(cfg, c, x, seen, more);
    } else if x.ContinuationFrame? {
      ContinuationKeepsOrder(cfg, c, x, seen, more);
    } else if x.RstFrame? {
      RstKeepsOrder(cfg, c, x, seen, more);
    } else if x.Seed? {
      SeedKeepsOrder(cfg, c, x, seen, more);
    } else {
      OthersKeepOrder(cfg, c, x, seen, more);
    }
  }

  function Ledger(cfg: Config, run: seq<Input>): StreamId -> seq<Byte> {
    (id: StreamId) => Accepted(cfg, run, id)
  }

  lemma {:induction false} RunKeepsOrder(cfg: Config, run: seq<Input>)
    requires Exec(cfg, run).err.None?
    ensures OrderInv(Exec(cfg, run).c, Ledger(cfg, run))
  {
    if run != [] {
      var init, x := run[..|run| - 1], run[|run| - 1];
      RunKeepsOrder(cfg, init);
      StepKeepsOrder(cfg, Exec(cfg, init).c, x, Ledger(cfg, init), Ledger(cfg, run));
    }
  }

  /** Sections 5.1 and 8.1 of RFC 9113. Over every run, the events of a stream that
      has not been reset are a prefix of Headers Data* Trailers?, at most one of them
      ends the stream and it is the last. */
  lemma EventGrammar(cfg: Config, run: seq<Input>, id: StreamId)
    requires Exec(cfg, run).err.None?
    requires id in Exec(cfg, run).c.streams && !Exec(cfg, run).c.streams[id].reset
    ensures Ordered(Exec(cfg, run).c.streams[id].log)
  {
    RunKeepsOrder(cfg, run);
    assert StreamsOk(Exec(cfg, run).c, Ledger(cfg, run));
  }

  /** Registered or released, a stream that has not been reset has queued, in order, every
      DATA octet it accepted; its request has ended exactly if the event that says so was
      queued; and while it is registered it has seen fields exactly if they were. */
  lemma BodyIsComplete(cfg: Config, run: seq<Input>, id: StreamId)
    requires Exec(cfg, run).err.None?
    requires id in Exec(cfg, run).c.streams && !Exec(cfg, run).c.streams[id].reset
    ensures var s := Exec(cfg, run).c.streams[id];
            && Body(s.log) == Accepted(cfg, run, id) && (s.ended <==> Finished(s.log))
            && (s.live ==> (s.recvd <==> s.log != []))
  {
    RunKeepsOrder(cfg, run);
    var c := Exec(cfg, run).c;
    assert StreamOk(c.streams[id], PendingOn(c, id), Ledger(cfg, run)(id));
  }

  // ---------------------------------------------------------------- nothing is turned away

  function Sent(x: Input, id: StreamId, sent: seq<Byte>): seq<Byte> {
    if Replaces(x, id) then [] else if x.DataFrame? && x.id == id then sent + x.data else sent
  }

  /** The payloads of every DATA frame of a stream in the run; of stream 1, since the
      upgrade took its place. */
  function Payloads(run: seq<Input>, id: StreamId): seq<Byte> {
    if run == [] then [] else Sent(run[|run| - 1], id, Payloads(run[..|run| - 1], id))
  }

  /** While a stream is registered and not reset it has accepted all that was sent on it;
      on what is no stream yet nothing was sent. */
  predicate Keeps(c: Conn, id: StreamId, taken: seq<Byte>, sent: seq<Byte>) {
    && (id % 2 == 1 && id > c.maxClient ==> sent == [] && taken == [])
    && (Live(c, id) && !c.streams[id].reset ==> taken == sent)
  }

  predicate Known(c: Conn) { forall id | id in c.streams :: id <= c.maxClient }

  /** What a callback can make of a stream: nothing new, unless it is its first HEADERS. */
  predicate Follows(c: Conn, r: Conn, x: Input, id: StreamId) {
    && c.maxClient <= r.maxClient
    && (Live(r, id) && !r.streams[id].reset && !Replaces(x, id) ==>
          || (Live(c, id) && !c.streams[id].reset)
          || (x.HeadersFrame? && x.id == id > c.maxClient && id % 2 == 1))
  }

  lemma EmitFollows(cfg: Config, c: Conn, id: StreamId, block: Block, end: bool, trailer: bool, k: StreamId)
    requires id in c.streams
    ensures var r := Emit(cfg, c, id, block, end, trailer).c;
            && r.maxClient == c.maxClient && r.streams.Keys == c.streams.Keys
            && (Live(r, k) && !r.streams[k].reset ==> Live(c, k) && !c.streams[k].reset)
  {
  }

  lemma HeadersFollow(cfg: Config, c: Conn, x: Input, id: StreamId)
    requires x.HeadersFrame? && Known(c) && Receive(cfg, c, x).err.None?
    ensures Follows(c, Receive(cfg, c, x).c, x, id)
  {
    var trailer := Live(c, x.id) && c.streams[x.id].recvd;
    var started := if Live(c, x.id) then c else Register(c, x.id, x.admitted);
    if x.endHeaders && (Live(c, x.id) || x.admitted) {
      EmitFollows(cfg, if trailer then started else RecordFields(started, x.id), x.id, x.frag, x.end, trailer, id);
    }
  }

  lemma ContinuationFollows(cfg: Config, c: Conn, x: Input, id: StreamId)
    requires x.ContinuationFrame? && Receive(cfg, c, x).err.None?
    ensures Follows(c, Receive(cfg, c, x).c, x, id)
  {
    var p := c.pending.value;
    if x.endHeaders && !p.discard && Live(c, x.id) {
      EmitFollows(cfg, if p.trailer then c else RecordFields(c, x.id), x.id, p.buf + x.frag, p.end, p.trailer, id);
    }
  }

  lemma StepFollows(cfg: Config, c: Conn, x: Input, id: StreamId)
    requires Known(c) && Receive(cfg, c, x).err.None?
    ensures Follows(c, Receive(cfg, c, x).c, x, id)
  {
    if x.HeadersFrame? {
      HeadersFollow(cfg, c, x, id);
    } else if x.ContinuationFrame? {
      ContinuationFollows(cfg, c, x, id);
    }
  }

  lemma KeepsStep(cfg: Config, c: Conn, x: Input, id: StreamId, taken: seq<Byte>, sent: seq<Byte>)
    requires Known(c) && Keeps(c, id, taken, sent) && Receive(cfg, c, x).err.None?
    ensures Keeps(Receive(cfg, c, x).c, id, Taken(c, x, id, taken), Sent(x, id, sent))
  {
    StepFollows(cfg, c, x, id);
  }

  lemma {:induction false} RunKeeps(cfg: Config, run: seq<Input>, id: StreamId)
    requires Exec(cfg, run).err.None?
    ensures Keeps(Exec(cfg, run).c, id, Accepted(cfg, run, id), Payloads(run, id))
  {
    if run != [] {
      var init, x := run[..|run| - 1], run[|run| - 1];
      RunKeeps(cfg, init, id);
      RunKeepsOrder(cfg, init);
      KeepsStep(cfg, Exec(cfg, init).c, x, id, Accepted(cfg, init, id), Payloads(init, id));
    }
  }

  /** While a stream is registered and not reset, nothing sent on it was turned away. */
  lemma NothingTurnedAway(cfg: Config, run: seq<Input>, id: StreamId)
    requires Exec(cfg, run).err.None? && Live(Exec(cfg, run).c, id) && !Exec(cfg, run).c.streams[id].reset
    ensures Accepted(cfg, run, id) == Payloads(run, id)
  {
    RunKeeps(cfg, run, id);
  }
}
