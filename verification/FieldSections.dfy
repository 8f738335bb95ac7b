/** Where the field sections that an application is shown come from. */
module FieldSections {
  import opened Windows
  import opened Inbound
  import EventOrder

  predicate Presentable(cfg: Config, e: Event)
    requires e.Headers? || e.Trailers?
  {
    ListSize(e.fields) <= cfg.maxHeaderBytes && !Malformed(cfg, e.fields, e.end, e.Trailers?)
  }

  /** The fields are what the decoder made of a block that came in frames of the stream. */
  predicate FromBlock(cfg: Config, done: seq<Owned>, id: StreamId, e: Event)
    requires e.Headers? || e.Trailers?
  {
    exists k :: 0 <= k < |done| && done[k].id == id && cfg.decode(Blocks(done[..k]), done[k].block) == Some(e.fields)
                && Presentable(cfg, e)
  }

  /** The fields are the request of the upgrade. */
  predicate FromUpgrade(run: seq<Input>, id: StreamId, e: Event)
    requires e.Headers? || e.Trailers?
  {
    id == 1 && exists i :: 0 <= i < |run| && run[i].Seed? && e == Headers(run[i].fields, true)
  }

  predicate Genuine(cfg: Config, run: seq<Input>, id: StreamId, e: Event) {
    e.Headers? || e.Trailers? ==> FromBlock(cfg, Completed(run, None), id, e) || FromUpgrade(run, id, e)
  }

  function LogOf(c: Conn, id: StreamId): seq<Event> {
    if id in c.streams then c.streams[id].log else []
  }

  /** What the event of one callback may be. */
  predicate Issued(cfg: Config, c: Conn, x: Input, id: StreamId, e: Event) {
    e.Headers? || e.Trailers? ==>
      || (x.Seed? && id == 1 && e == Headers(x.fields, true))
      || (var b := Closes(x, OpenBlockOf(c));
          b.Some? && b.value.id == id && cfg.decode(c.fed, b.value.block) == Some(e.fields) && Presentable(cfg, e))
  }

  /** What one callback may do to a log: nothing, one event more, or a new start. */
  ghost predicate Adds(cfg: Config, c: Conn, x: Input, id: StreamId, before: seq<Event>, after: seq<Event>) {
    after == before || after == [] || exists e :: (after == before + [e] || after == [e]) && Issued(cfg, c, x, id, e)
  }

  lemma EmitAdds(cfg: Config, c: Conn, id: StreamId, block: Block, end: bool, trailer: bool)
    requires id in c.streams
    ensures var after := LogOf(Emit(cfg, c, id, block, end, trailer).c, id);
            || after == LogOf(c, id)
            || exists e :: after == LogOf(c, id) + [e] && (e.Headers? || e.Trailers?)
                           && cfg.decode(c.fed, block) == Some(e.fields) && Presentable(cfg, e)
  {
    var decoded := cfg.decode(c.fed, block);
    if decoded.Some? && ListSize(decoded.value) <= cfg.maxHeaderBytes && !Malformed(cfg, decoded.value, end, trailer) {
      var e := if trailer then Trailers(decoded.value, end) else Headers(decoded.value, end);
      assert Presentable(cfg, e);
      assert LogOf(Deliver(cfg, c, id, e, end), id) == LogOf(c, id) || LogOf(Deliver(cfg, c, id, e, end), id) == LogOf(c, id) + [e];
    }
  }

  lemma HeadersAdd(cfg: Config, c: Conn, x: Input)
    requires x.HeadersFrame? && EventOrder.Known(c)
    ensures Adds(cfg, c, x, x.id, LogOf(c, x.id), LogOf(Receive(cfg, c, x).c, x.id))
  {
    var trailer := Live(c, x.id) && c.streams[x.id].recvd;
    if x.endHeaders && (Live(c, x.id) || x.admitted) {
      var started := if Live(c, x.id) then c else Register(c, x.id, x.admitted);
      EmitAdds(cfg, if trailer then started else RecordFields(started, x.id), x.id, x.frag, x.end, trailer);
    }
  }

  lemma ContinuationAdds(cfg: Config, c: Conn, x: Input)
    requires x.ContinuationFrame?
    ensures Adds(cfg, c, x, x.id, LogOf(c, x.id), LogOf(Receive(cfg, c, x).c, x.id))
  {
    if c.pending.Some? && Live(c, x.id) {
      var p := c.pending.value;
      EmitAdds(cfg, if p.trailer then c else RecordFields(c, x.id), x.id, p.buf + x.frag, p.end, p.trailer);
    }
  }

  lemma DataAdds(cfg: Config, c: Conn, x: Input)
    requires x.DataFrame?
    ensures Adds(cfg, c, x, x.id, LogOf(c, x.id), LogOf(Receive(cfg, c, x).c, x.id))
  {
    assert Issued(cfg, c, x, x.id, Data(x.data, x.end));
  }

  lemma SeedAdds(cfg: Config, c: Conn, x: Input)
    requires x.Seed?
    ensures Adds(cfg, c, x, 1, LogOf(c, 1), LogOf(Receive(cfg, c, x).c, 1))
  {
    assert Issued(cfg, c, x, 1, Headers(x.fields, true));
    assert [] + [Headers(x.fields, true)] == [Headers(x.fields, true)];
  }

  lemma OthersAdd(cfg: Config, c: Conn, x: Input)
    requires !x.DataFrame? && !x.HeadersFrame? && !x.ContinuationFrame? && !x.OtherFrame? && !x.Seed?
    ensures Adds(cfg, c, x, x.id, LogOf(c, x.id), LogOf(Receive(cfg, c, x).c, x.id))
  {
    assert Issued(cfg, c, x, x.id, Reset);
  }

  lemma EmitFrames(cfg: Config, c: Conn, id: StreamId, block: Block, end: bool, trailer: bool, k: StreamId)
    requires id in c.streams && id != k
    ensures LogOf(Emit(cfg, c, id, block, end, trailer).c, k) == LogOf(c, k)
  {
  }

  lemma HeadersFrames(cfg: Config, c: Conn, x: Input, k: StreamId)
    requires x.HeadersFrame? && x.id != k
    ensures LogOf(Receive(cfg, c, x).c, k) == LogOf(c, k)
  {
    var trailer := Live(c, x.id) && c.streams[x.id].recvd;
    var started := if Live(c, x.id) then c else Register(c, x.id, x.admitted);
    assert LogOf(started, k) == LogOf(c, k);
    EmitFrames(cfg, if trailer then started else RecordFields(started, x.id), x.id, x.frag, x.end, trailer, k);
  }

  predicate About(x: Input, k: StreamId) { !x.OtherFrame? && if x.Seed? then k == 1 else x.id == k }

  lemma OtherLogsStay(cfg: Config, c: Conn, x: Input, k: StreamId)
    requires !About(x, k)
    ensures LogOf(Receive(cfg, c, x).c, k) == LogOf(c, k)
  {
    if x.HeadersFrame? {
      HeadersFrames(cfg, c, x, k);
    } else if x.ContinuationFrame? && c.pending.Some? && Live(c, x.id) {
      var p := c.pending.value;
      EmitFrames(cfg, if p.trailer then c else RecordFields(c, x.id), x.id, p.buf + x.frag, p.end, p.trailer, k);
    }
  }

  lemma ReceiveAdds(cfg: Config, c: Conn, x: Input, k: StreamId)
    requires EventOrder.Known(c)
    ensures Adds(cfg, c, x, k, LogOf(c, k), LogOf(Receive(cfg, c, x).c, k))
  {
    if !About(x, k) {
      OtherLogsStay(cfg, c, x, k);
    } else if x.HeadersFrame? {
      HeadersAdd(cfg, c, x);
    } else if x.ContinuationFrame? {
      ContinuationAdds(cfg, c, x);
    } else if x.DataFrame? {
      DataAdds(cfg, c, x);
    } else if x.Seed? {
      SeedAdds(cfg, c, x);
    } else {
      OthersAdd(cfg, c, x);
    }
  }

  // ---------------------------------------------------------------- runs

  /** What is genuine stays so as the run goes on. */
  lemma GenuineGrows(cfg: Config, run: seq<Input>, x: Input, id: StreamId, e: Event)
    requires Genuine(cfg, run, id, e)
    ensures Genuine(cfg, run + [x], id, e)
  {
    if e.Headers? || e.Trailers? {
      var done := Completed(run, None);
      CompletedSnoc(run, x, None);
      var more := Completed(run + [x], None);
      if FromBlock(cfg, done, id, e) {
        var k :| 0 <= k < |done| && done[k].id == id && cfg.decode(Blocks(done[..k]), done[k].block) == Some(e.fields) && Presentable(cfg, e);
        assert more[..k] == done[..k] && more[k] == done[k];
      } else {
        var i :| 0 <= i < |run| && run[i].Seed? && e == Headers(run[i].fields, true);
        assert (run + [x])[i] == run[i];
      }
    }
  }

  lemma IssuedIsGenuine(cfg: Config, run: seq<Input>, x: Input, id: StreamId, e: Event)
    requires Exec(cfg, run).err.None? && Issued(cfg, Exec(cfg, run).c, x, id, e)
    ensures Genuine(cfg, run + [x], id, e)
  {
    if e.Headers? || e.Trailers? {
      var c, done := Exec(cfg, run).c, Completed(run, None);
      HpackInSync(cfg, run);
      CompletedSnoc(run, x, None);
      if x.Seed? && id == 1 && e == Headers(x.fields, true) {
        assert (run + [x])[|run|] == x;
      } else {
        var more := Completed(run + [x], None);
        assert more == done + [Closes(x, OpenBlockOf(c)).value];
        assert more[..|done|] == done && more[|done|] == Closes(x, OpenBlockOf(c)).value;
      }
    }
  }

  predicate AllGenuine(cfg: Config, run: seq<Input>, id: StreamId, log: seq<Event>) {
    forall i :: 0 <= i < |log| ==> Genuine(cfg, run, id, log[i])
  }

  lemma GenuineStays(cfg: Config, run: seq<Input>, x: Input, id: StreamId, before: seq<Event>, after: seq<Event>)
    requires Exec(cfg, run).err.None? && AllGenuine(cfg, run, id, before) && Adds(cfg, Exec(cfg, run).c, x, id, before, after)
    ensures AllGenuine(cfg, run + [x], id, after)
  {
    forall i | 0 <= i < |before|
      ensures Genuine(cfg, run + [x], id, before[i])
    {
      GenuineGrows(cfg, run, x, id, before[i]);
    }
    if after != before && after != [] {
      var e :| (after == before + [e] || after == [e]) && Issued(cfg, Exec(cfg, run).c, x, id, e);
      IssuedIsGenuine(cfg, run, x, id, e);
    }
  }

  /** Over every run, whatever becomes of a stream, each field section its application is
      shown is what the decoder made of one block that came in frames of that stream, in
      its turn, not oversized and not malformed; or it is the request of the upgrade. */
  lemma {:induction false} FieldsAreGenuine(cfg: Config, run: seq<Input>, id: StreamId)
    requires Exec(cfg, run).err.None?
    ensures AllGenuine(cfg, run, id, LogOf(Exec(cfg, run).c, id))
  {
    if run != [] {
      var init, x := run[..|run| - 1], run[|run| - 1];
      assert run == init + [x];
      FieldsAreGenuine(cfg, init, id);
      EventOrder.RunKeepsOrder(cfg, init);
      var c := Exec(cfg, init).c;
      ReceiveAdds(cfg, c, x, id);
      GenuineStays(cfg, init, x, id, LogOf(c, id), LogOf(Receive(cfg, c, x).c, id));
    }
  }
}
