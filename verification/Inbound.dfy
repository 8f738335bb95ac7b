/** The frames a client sends, as the single reader goroutine sees them: header
    blocks put together from HEADERS and CONTINUATION, one HPACK decoder shared by
    all streams, and the events queued for each stream.

    One input is one callback of the reader, or one step another goroutine takes
    between two callbacks. The decoder and the field checks belong to other
    packages and are parameters; the decoder is a function of what it was fed. */
module Inbound {
  import opened Windows

  newtype Byte = x: int | 0 <= x < 256
  type Block = seq<Byte>
  type StreamId = nat

  /** indexing: the literal representation the peer chose. */
  datatype Field = Field(name: seq<Byte>, value: seq<Byte>, indexing: nat)

  datatype ErrCode = ProtocolError | RefusedStream | FlowControlError | StreamClosed | CompressionError | EnhanceYourCalm

  datatype Event = Headers(fields: seq<Field>, end: bool) | Data(data: seq<Byte>, end: bool) | Trailers(fields: seq<Field>, end: bool) | Reset

  /** decode: the fields of a block after the blocks fed so far, or an error.
      resetBudget: the rapid resets a client may spend, 0 for no limit. */
  datatype Config = Config(
    maxHeaderBytes: nat,
    eventBuf: nat,
    resetBudget: nat,
    decode: (seq<Block>, Block) -> Option<seq<Field>>,
    prohibited: (Field, bool) -> bool,
    validPseudo: seq<Field> -> bool)

  /** One stream, from its first HEADERS on. log: every event ever queued, of which
      the application has taken the first `read`. */
  datatype Stream = Stream(live: bool, recvd: bool, ended: bool, localEnded: bool, reset: bool, log: seq<Event>, read: nat)

  /** A header block waiting for CONTINUATION. */
  datatype Pending = Pending(id: StreamId, buf: Block, end: bool, trailer: bool, discard: bool)

  /** fed: the blocks the decoder has been given, in order. sent: the resets and
      431 answers written by the reader. */
  datatype Answer = Rst(id: StreamId, code: ErrCode) | TooLarge(id: StreamId)
  datatype Conn = Conn(
    pending: Option<Pending>, fed: seq<Block>, maxClient: nat, streams: map<StreamId, Stream>, sent: seq<Answer>,
    rapid: nat) // resets charged to the budget so far

  datatype Outcome = Outcome(c: Conn, err: Option<ErrCode>)

  function Fine(c: Conn): Outcome { Outcome(c, None) }
  function Fail(c: Conn, code: ErrCode): Outcome { Outcome(c, Some(code)) }

  const FIELD_ENTRY_OVERHEAD := 32

  /** Section 6.5.2 of RFC 9113: the uncompressed size of a field section. */
  function ListSize(fields: seq<Field>): nat {
    if fields == [] then 0
    else ListSize(fields[..|fields| - 1]) + EntrySize(fields[|fields| - 1])
  }

  function EntrySize(f: Field): nat { |f.name| + |f.value| + FIELD_ENTRY_OVERHEAD }

  // ---------------------------------------------------------------- streams

  predicate Live(c: Conn, id: StreamId) { id in c.streams && c.streams[id].live }

  function SetStream(c: Conn, id: StreamId, s: Stream): Conn { c.(streams := c.streams[id := s]) }

  /** ServerStream.push: queue the event, or reset the stream when its buffer is
      full. */
  function Push(cfg: Config, s: Stream, e: Event): Stream {
    if s.read + cfg.eventBuf > |s.log| then s.(log := s.log + [e]) else s.(reset := true)
  }

  /** writeServerRSTStream, as far as the reader is concerned. */
  function ResetStream(c: Conn, id: StreamId, code: ErrCode): Conn
    requires id in c.streams
  {
    SetStream(c, id, c.streams[id].(reset := true, live := false)).(sent := c.sent + [Rst(id, code)])
  }

  /** respondFieldsTooLarge: 431 with END_STREAM if the stream still takes frames,
      then release. */
  function RespondTooLarge(c: Conn, id: StreamId): Conn {
    if !Live(c, id) then c
    else if c.streams[id].reset || c.streams[id].localEnded then SetStream(c, id, c.streams[id].(live := false))
    else SetStream(c, id, c.streams[id].(localEnded := true, live := false)).(sent := c.sent + [TooLarge(id)])
  }

  /** Record the end first, then push, then release if both halves have ended. */
  function Deliver(cfg: Config, c: Conn, id: StreamId, e: Event, end: bool): Conn
    requires id in c.streams
  {
    var s := c.streams[id];
    var marked := s.(ended := s.ended || end);
    var pushed := Push(cfg, marked, e);
    SetStream(c, id, pushed.(live := s.live && !(end && s.localEnded)))
  }

  // ---------------------------------------------------------------- callbacks

  function OnData(cfg: Config, c: Conn, id: StreamId, data: seq<Byte>, end: bool, overdrawn: bool): Outcome {
    if c.pending.Some? then Fail(c, ProtocolError)
    else if id % 2 == 0 then Fail(c, ProtocolError)
    else if id > c.maxClient then Fail(c, ProtocolError)
    else if overdrawn then Fail(c, FlowControlError)
    else if !Live(c, id) then Fine(c)
    else if c.streams[id].ended then Fine(ResetStream(c, id, StreamClosed))
    else Fine(Deliver(cfg, c, id, Data(data, end), end))
  }

  /** Decode for the decoder's sake only. */
  function Discard(cfg: Config, c: Conn, block: Block): Outcome {
    var fed := c.(pending := None, fed := c.fed + [block]);
    if cfg.decode(c.fed, block).None? then Fail(fed, CompressionError) else Fine(fed)
  }

  predicate Malformed(cfg: Config, fields: seq<Field>, end: bool, trailer: bool) {
    || (exists i :: 0 <= i < |fields| && cfg.prohibited(fields[i], trailer))
    || (!trailer && !cfg.validPseudo(fields))
    || (trailer && !end)
  }

  /** A complete block of a live stream. */
  function Emit(cfg: Config, c: Conn, id: StreamId, block: Block, end: bool, trailer: bool): Outcome
    requires id in c.streams
  {
    var fed := c.(pending := None, fed := c.fed + [block]);
    match cfg.decode(c.fed, block)
    case None => Fail(fed, CompressionError)
    case Some(fields) =>
      if ListSize(fields) > cfg.maxHeaderBytes then Fine(RespondTooLarge(fed, id))
      else if c.streams[id].ended then Fine(ResetStream(fed, id, StreamClosed))
      else if Malformed(cfg, fields, end, trailer) then Fine(ResetStream(fed, id, ProtocolError))
      else Fine(Deliver(cfg, fed, id, if trailer then Trailers(fields, end) else Headers(fields, end), end))
  }

  function RecordFields(c: Conn, id: StreamId): Conn
    requires id in c.streams
  {
    SetStream(c, id, c.streams[id].(recvd := true))
  }

  const FRESH := Stream(true, false, false, false, false, [], 0)

  /** admitted: neither the concurrency limit nor a full accept queue refused it. A
      refusal uses the identifier up all the same. */
  function Register(c: Conn, id: StreamId, admitted: bool): Conn {
    var started := SetStream(c, id, FRESH).(maxClient := id);
    if admitted then started else ResetStream(started, id, RefusedStream)
  }

  function OnHeaders(cfg: Config, c: Conn, id: StreamId, frag: Block, end: bool, endHeaders: bool, admitted: bool): Outcome {
    if c.pending.Some? then Fail(c, ProtocolError)
    else if id % 2 == 0 then Fail(c, ProtocolError)
    else if Live(c, id) then OpenBlock(cfg, c, id, frag, end, endHeaders, c.streams[id].recvd, false)
    else if id <= c.maxClient then Fail(c, ProtocolError)
    else OpenBlock(cfg, Register(c, id, admitted), id, frag, end, endHeaders, false, !admitted)
  }

  function OpenBlock(cfg: Config, c: Conn, id: StreamId, frag: Block, end: bool, endHeaders: bool, trailer: bool, refused: bool): Outcome
    requires id in c.streams
  {
    if !endHeaders then
      if |frag| > cfg.maxHeaderBytes then Fail(RespondTooLarge(c, id), EnhanceYourCalm)
      else Fine(c.(pending := Some(Pending(id, frag, end, trailer, refused))))
    else if refused then Discard(cfg, c, frag)
    else Emit(cfg, if trailer then c else RecordFields(c, id), id, frag, end, trailer)
  }

  function OnContinuation(cfg: Config, c: Conn, id: StreamId, frag: Block, endHeaders: bool): Outcome {
    if c.pending.None? || id != c.pending.value.id then Fail(c, ProtocolError)
    else
      var p := c.pending.value;
      if |p.buf| + |frag| > cfg.maxHeaderBytes then Fail(RespondTooLarge(c, id), EnhanceYourCalm)
      else if !endHeaders then Fine(c.(pending := Some(p.(buf := p.buf + frag))))
      else if p.discard || !Live(c, id) then Discard(cfg, c, p.buf + frag)
      else Emit(cfg, if p.trailer then c else RecordFields(c, id), id, p.buf + frag, p.end, p.trailer)
  }

  /** A reset of a stream that is gone or whose request was still open is charged to the
      budget. idlePush and livePush: what the stream table says of an even identifier;
      pushed streams receive nothing and are not part of this state. */
  function OnRst(cfg: Config, c: Conn, id: StreamId, idlePush: bool, livePush: bool): Outcome {
    if c.pending.Some? then Fail(c, ProtocolError)
    else if if id % 2 == 0 then idlePush else id > c.maxClient then Fail(c, ProtocolError)
    else
      var rapid := if id % 2 == 0 then !livePush else !Live(c, id) || !c.streams[id].ended;
      var after := if Live(c, id) then
                     SetStream(c, id, Push(cfg, c.streams[id].(ended := true, reset := true), Reset).(live := false))
                   else c;
      Charged(cfg, after, rapid)
  }

  function Charged(cfg: Config, c: Conn, rapid: bool): Outcome {
    if cfg.resetBudget == 0 || !rapid then Fine(c)
    else Outcome(c.(rapid := c.rapid + 1), if c.rapid + 1 > cfg.resetBudget then Some(EnhanceYourCalm) else None)
  }

  /** What registerStream makes of a stream: in, refused at the concurrency limit before
      it entered the table, or refused after it for want of room in the accept queue. */
  datatype Admission = Admitted | AtLimit | QueueFull

  function Max(a: nat, b: nat): nat { if a < b then b else a }

  /** seedUpgradedStream: the request of the HTTP/1.1 upgrade becomes stream 1, already
      ended. The handshake has let frames through before, so a stream 1 of the client's
      own may be there; it loses its place in the table. */
  function Seeded(cfg: Config, c: Conn, fields: seq<Field>, admission: Admission): Conn {
    var d := c.(maxClient := Max(c.maxClient, 1));
    match admission
    case Admitted => SetStream(d, 1, Push(cfg, FRESH.(recvd := true), Headers(fields, true)).(ended := true))
    case QueueFull => ResetStream(SetStream(d, 1, FRESH), 1, RefusedStream)
    case AtLimit =>
      var s := if 1 in c.streams then c.streams[1].(live := false) else FRESH.(reset := true, live := false);
      SetStream(d, 1, s).(sent := c.sent + [Rst(1, RefusedStream)])
  }

  // ---------------------------------------------------------------- runs

  /** The reader's callbacks, with what their collaborators answer, and what other
      goroutines do to a stream: reset it, release it once that is due, end the
      server's half, take an event. Seed: the upgrade, between handshake and reader. */
  datatype Input =
    | DataFrame(id: StreamId, data: seq<Byte>, end: bool, overdrawn: bool)
    | HeadersFrame(id: StreamId, frag: Block, end: bool, endHeaders: bool, admitted: bool)
    | ContinuationFrame(id: StreamId, frag: Block, endHeaders: bool)
    | RstFrame(id: StreamId, idlePush: bool, livePush: bool)
    | OtherFrame
    | AppReset(id: StreamId)
    | AppRelease(id: StreamId)
    | AppEnd(id: StreamId)
    | AppRecv(id: StreamId)
    | Seed(fields: seq<Field>, admission: Admission)

  function Receive(cfg: Config, c: Conn, i: Input): Outcome {
    match i
    case DataFrame(id, data, end, overdrawn) => OnData(cfg, c, id, data, end, overdrawn)
    case HeadersFrame(id, frag, end, endHeaders, admitted) => OnHeaders(cfg, c, id, frag, end, endHeaders, admitted)
    case ContinuationFrame(id, frag, endHeaders) => OnContinuation(cfg, c, id, frag, endHeaders)
    case RstFrame(id, idlePush, livePush) => OnRst(cfg, c, id, idlePush, livePush)
    case OtherFrame => if c.pending.Some? then Fail(c, ProtocolError) else Fine(c)
    case Seed(fields, admission) => Fine(Seeded(cfg, c, fields, admission))
    case _ => Fine(if i.id in c.streams then SetStream(c, i.id, Outside(c.streams[i.id], i)) else c)
  }

  function Outside(s: Stream, i: Input): Stream {
    match i
    case AppReset(_) => s.(reset := true)
    case AppRelease(_) => if s.reset || (s.ended && s.localEnded) then s.(live := false) else s
    case AppEnd(_) => s.(localEnded := true)
    case AppRecv(_) => if s.read < |s.log| then s.(read := s.read + 1) else s
    case _ => s
  }

  const START := Conn(None, [], 0, map[], [], 0)

  /** The outcome of a whole run; a connection error ends it. */
  function Exec(cfg: Config, run: seq<Input>): Outcome {
    if run == [] then Fine(START)
    else
      var before := Exec(cfg, run[..|run| - 1]);
      if before.err.Some? then before else Receive(cfg, before.c, run[|run| - 1])
  }

  // ------------------------------------------------- header blocks, from the frames alone

  /** A header block, whole or not yet, and the stream whose frames carry it. */
  datatype Owned = Owned(id: StreamId, block: Block)

  /** The block a frame completes, given the fragments already open. */
  function Closes(i: Input, open: Option<Owned>): Option<Owned> {
    if i.HeadersFrame? && i.endHeaders then Some(Owned(i.id, i.frag))
    else if i.ContinuationFrame? && i.endHeaders && open.Some? then Some(Owned(open.value.id, open.value.block + i.frag))
    else None
  }

  /** The fragments open after the frame. */
  function Leaves(i: Input, open: Option<Owned>): Option<Owned> {
    if i.HeadersFrame? then if i.endHeaders then None else Some(Owned(i.id, i.frag))
    else if i.ContinuationFrame? && open.Some? then
      if i.endHeaders then None else Some(Owned(open.value.id, open.value.block + i.frag))
    else open
  }

  function AsSeq(b: Option<Owned>): seq<Owned> { if b.None? then [] else [b.value] }

  function Blocks(done: seq<Owned>): (r: seq<Block>)
    ensures |r| == |done| && forall i :: 0 <= i < |done| ==> r[i] == done[i].block
  {
    seq(|done|, i requires 0 <= i < |done| => done[i].block)
  }

  /** The blocks a run of frames completes. */
  function Completed(run: seq<Input>, open: Option<Owned>): seq<Owned> {
    if run == [] then [] else AsSeq(Closes(run[0], open)) + Completed(run[1..], Leaves(run[0], open))
  }

  /** The fragments still waiting for END_HEADERS after the run. */
  function StillOpen(run: seq<Input>, open: Option<Owned>): Option<Owned> {
    if run == [] then open else StillOpen(run[1..], Leaves(run[0], open))
  }

  lemma {:induction false} CompletedSnoc(run: seq<Input>, x: Input, open: Option<Owned>)
    ensures Completed(run + [x], open) == Completed(run, open) + AsSeq(Closes(x, StillOpen(run, open)))
    ensures StillOpen(run + [x], open) == Leaves(x, StillOpen(run, open))
  {
    if run == [] {
      assert run + [x] == [x];
    } else {
      assert (run + [x])[1..] == run[1..] + [x];
      CompletedSnoc(run[1..], x, Leaves(run[0], open));
    }
  }

  /** The octets of the blocks that belong to a stream. */
  function Flat(done: seq<Owned>, id: StreamId): Block {
    if done == [] then [] else Octets(Some(done[0]), id) + Flat(done[1..], id)
  }

  function Octets(b: Option<Owned>, id: StreamId): Block { if b.Some? && b.value.id == id then b.value.block else [] }

  function Fragment(i: Input, id: StreamId): Block {
    if (i.HeadersFrame? || i.ContinuationFrame?) && i.id == id then i.frag else []
  }

  /** Every fragment in frames of the stream, in order. */
  function Fragments(run: seq<Input>, id: StreamId): Block {
    if run == [] then [] else Fragment(run[0], id) + Fragments(run[1..], id)
  }

  predicate EndsHeaders(i: Input) { (i.HeadersFrame? || i.ContinuationFrame?) && i.endHeaders }

  function EndHeadersFlags(run: seq<Input>): nat {
    if run == [] then 0 else (if EndsHeaders(run[0]) then 1 else 0) + EndHeadersFlags(run[1..])
  }

  /** A frame that keeps to section 6.10 of RFC 9113 where fragments are open. */
  predicate InTurn(i: Input, open: Option<Owned>) {
    (i.HeadersFrame? ==> open.None?) && (i.ContinuationFrame? ==> open.Some? && open.value.id == i.id)
  }

  predicate AllInTurn(run: seq<Input>, open: Option<Owned>) {
    run == [] || (InTurn(run[0], open) && AllInTurn(run[1..], Leaves(run[0], open)))
  }

  lemma {:induction false} InTurnSnoc(run: seq<Input>, x: Input, open: Option<Owned>)
    requires AllInTurn(run, open) && InTurn(x, StillOpen(run, open))
    ensures AllInTurn(run + [x], open)
  {
    if run != [] {
      assert (run + [x])[1..] == run[1..] + [x];
      InTurnSnoc(run[1..], x, Leaves(run[0], open));
    }
  }

  /** One frame's fragment goes to the block it closes or to the one it leaves open. */
  lemma OneFragment(i: Input, open: Option<Owned>, id: StreamId)
    requires InTurn(i, open)
    ensures Octets(Closes(i, open), id) + Octets(Leaves(i, open), id) == Octets(open, id) + Fragment(i, id)
    ensures Closes(i, open).Some? <==> EndsHeaders(i)
  {
  }

  lemma FlatFirst(b: Option<Owned>, done: seq<Owned>, id: StreamId)
    ensures Flat(AsSeq(b) + done, id) == Octets(b, id) + Flat(done, id)
  {
    if b.Some? {
      assert ([b.value] + done)[1..] == done;
    } else {
      assert [] + done == done;
    }
  }

  lemma Regroup(a: Block, flat: Block, left: Block, v: Block, rest: Block, o: Block, f: Block)
    requires flat + left == v + rest && a + v == o + f
    ensures (a + flat) + left == o + (f + rest)
  {
    assert (a + flat) + left == a + (flat + left) == (a + v) + rest;
  }

  /** No octet is lost, invented or moved between blocks or streams: the blocks of a
      stream and its open rest are the fragments in its frames, in order, and there is
      one block for each END_HEADERS. */
  lemma {:induction false} BlocksAreTheFragments(run: seq<Input>, open: Option<Owned>, id: StreamId)
    requires AllInTurn(run, open)
    ensures Flat(Completed(run, open), id) + Octets(StillOpen(run, open), id) == Octets(open, id) + Fragments(run, id)
    ensures |Completed(run, open)| == EndHeadersFlags(run)
  {
    if run != [] {
      var x, rest := run[0], run[1..];
      var leaves := Leaves(x, open);
      BlocksAreTheFragments(rest, leaves, id);
      OneFragment(x, open, id);
      FlatFirst(Closes(x, open), Completed(rest, leaves), id);
      Regroup(Octets(Closes(x, open), id), Flat(Completed(rest, leaves), id), Octets(StillOpen(rest, leaves), id),
              Octets(leaves, id), Fragments(rest, id), Octets(open, id), Fragment(x, id));
    }
  }

  // ---------------------------------------------------------------- HPACK

  function OpenBlockOf(c: Conn): Option<Owned> {
    if c.pending.None? then None else Some(Owned(c.pending.value.id, c.pending.value.buf))
  }

  function BlockOf(b: Option<Owned>): seq<Block> { if b.None? then [] else [b.value.block] }

  /** The decoder has accepted every block it was fed. */
  predicate Decoded(cfg: Config, fed: seq<Block>) {
    forall k :: 0 <= k < |fed| ==> cfg.decode(fed[..k], fed[k]).Some?
  }

  lemma DecodedSnoc(cfg: Config, fed: seq<Block>, block: Block)
    requires Decoded(cfg, fed) && cfg.decode(fed, block).Some?
    ensures Decoded(cfg, fed + [block])
  {
    var more := fed + [block];
    forall k | 0 <= k < |more|
      ensures cfg.decode(more[..k], more[k]).Some?
    {
      assert more[..k] == fed[..k];
      assert fed[..|fed|] == fed;
    }
  }

  /** What a complete block does to the decoder: it is fed once, and accepted. */
  lemma EmitFeeds(cfg: Config, c: Conn, id: StreamId, block: Block, end: bool, trailer: bool)
    requires id in c.streams && Emit(cfg, c, id, block, end, trailer).err.None?
    ensures Emit(cfg, c, id, block, end, trailer).c.fed == c.fed + [block]
    ensures Emit(cfg, c, id, block, end, trailer).c.pending.None?
    ensures cfg.decode(c.fed, block).Some?
  {
  }

  lemma HeadersFeed(cfg: Config, c: Conn, i: Input)
    requires i.HeadersFrame? && Receive(cfg, c, i).err.None?
    ensures c.pending.None?
    ensures Receive(cfg, c, i).c.fed == c.fed + BlockOf(Closes(i, None)) && OpenBlockOf(Receive(cfg, c, i).c) == Leaves(i, None)
    ensures i.endHeaders ==> cfg.decode(c.fed, i.frag).Some?
    ensures !i.endHeaders ==> |i.frag| <= cfg.maxHeaderBytes
  {
    var trailer := Live(c, i.id) && c.streams[i.id].recvd;
    var started := if Live(c, i.id) then c else Register(c, i.id, i.admitted);
    if i.endHeaders && (Live(c, i.id) || i.admitted) {
      EmitFeeds(cfg, if trailer then started else RecordFields(started, i.id), i.id, i.frag, i.end, trailer);
    }
  }

  lemma ContinuationFeeds(cfg: Config, c: Conn, i: Input)
    requires i.ContinuationFrame? && Receive(cfg, c, i).err.None?
    ensures c.pending.Some? && |c.pending.value.buf| + |i.frag| <= cfg.maxHeaderBytes
    ensures Receive(cfg, c, i).c.fed == c.fed + BlockOf(Closes(i, OpenBlockOf(c)))
    ensures OpenBlockOf(Receive(cfg, c, i).c) == Leaves(i, OpenBlockOf(c))
    ensures i.endHeaders ==> cfg.decode(c.fed, c.pending.value.buf + i.frag).Some?
  {
    var p := c.pending.value;
    if i.endHeaders && !p.discard && Live(c, i.id) {
      EmitFeeds(cfg, if p.trailer then c else RecordFields(c, i.id), i.id, p.buf + i.frag, p.end, p.trailer);
    }
  }

  predicate BufferInv(cfg: Config, c: Conn) {
    Decoded(cfg, c.fed) && (c.pending.Some? ==> |c.pending.value.buf| <= cfg.maxHeaderBytes)
  }

  /** One callback feeds the decoder what the frame completes, and nothing else. */
  lemma ReceiveFeeds(cfg: Config, c: Conn, i: Input)
    requires BufferInv(cfg, c) && Receive(cfg, c, i).err.None?
    ensures Receive(cfg, c, i).c.fed == c.fed + BlockOf(Closes(i, OpenBlockOf(c)))
    ensures OpenBlockOf(Receive(cfg, c, i).c) == Leaves(i, OpenBlockOf(c))
    ensures InTurn(i, OpenBlockOf(c)) && BufferInv(cfg, Receive(cfg, c, i).c)
  {
    if i.HeadersFrame? {
      HeadersFeed(cfg, c, i);
    } else if i.ContinuationFrame? {
      ContinuationFeeds(cfg, c, i);
    }
    var closes := Closes(i, OpenBlockOf(c));
    if closes.Some? {
      DecodedSnoc(cfg, c.fed, closes.value.block);
    }
  }

  /** Section 4.3 of RFC 9113. Over every run without a connection error the shared
      decoder has been fed exactly the completed header blocks, each once, in the
      order they were completed, whatever became of their streams; and an open
      block never outgrows maxHeaderBytes. */
  lemma {:induction false} HpackInSync(cfg: Config, run: seq<Input>)
    requires Exec(cfg, run).err.None?
    ensures Exec(cfg, run).c.fed == Blocks(Completed(run, None))
    ensures OpenBlockOf(Exec(cfg, run).c) == StillOpen(run, None)
    ensures BufferInv(cfg, Exec(cfg, run).c) && AllInTurn(run, None)
  {
    if run != [] {
      var init, x := run[..|run| - 1], run[|run| - 1];
      assert run == init + [x];
      HpackInSync(cfg, init);
      ReceiveFeeds(cfg, Exec(cfg, init).c, x);
      CompletedSnoc(init, x, None);
      InTurnSnoc(init, x, None);
      var done, more := Completed(init, None), AsSeq(Closes(x, StillOpen(init, None)));
      assert Blocks(done + more) == Blocks(done) + BlockOf(Closes(x, StillOpen(init, None)));
    }
  }
}
