/** What every input of the reader leads to, stream by stream and in terms of the state
    before it: which connection error, which answer on the wire, which event for the
    application, and which stream leaves the table. */
module ReaderLaw {
  import opened Windows
  import opened Inbound
  import ResetBudget

  // ---------------------------------------------------------------- header blocks

  /** A frame that completes a block, or leaves one open. */
  predicate Carries(x: Input) { x.HeadersFrame? || x.ContinuationFrame? }

  /** The block the input completes, if it does. */
  function Whole(c: Conn, x: Input): Option<Owned> { Closes(x, OpenBlockOf(c)) }

  /** A block whose stream is registered, or becomes so with it, is shown to the application;
      one whose stream was refused or is gone is decoded and dropped. */
  predicate Heard(c: Conn, x: Input) {
    if x.HeadersFrame? then x.endHeaders && (Live(c, x.id) || x.admitted)
    else x.ContinuationFrame? && x.endHeaders && c.pending.Some? && !c.pending.value.discard && Live(c, x.id)
  }

  /** The stream as the block finds it. */
  function Before(c: Conn, x: Input): Stream
    requires Carries(x)
  {
    if Live(c, x.id) then c.streams[x.id] else FRESH
  }

  /** Whether it is a trailer section, and whether it ends the request. */
  predicate Trailing(c: Conn, x: Input) {
    if x.HeadersFrame? then Live(c, x.id) && c.streams[x.id].recvd else c.pending.Some? && c.pending.value.trailer
  }

  predicate Ending(c: Conn, x: Input) {
    if x.HeadersFrame? then x.end else c.pending.Some? && c.pending.value.end
  }

  function FieldsOf(cfg: Config, c: Conn, x: Input): seq<Field> {
    if Whole(c, x).Some? && cfg.decode(c.fed, Whole(c, x).value.block).Some? then cfg.decode(c.fed, Whole(c, x).value.block).value else []
  }

  /** Section 6.5.2: the octets of names and values, and 32 more for each field. */
  function FieldOctets(fields: seq<Field>): nat {
    if fields == [] then 0 else |fields[0].name| + |fields[0].value| + FieldOctets(fields[1..])
  }

  predicate Oversized(cfg: Config, c: Conn, x: Input) {
    FieldOctets(FieldsOf(cfg, c, x)) + 32 * |FieldsOf(cfg, c, x)| > cfg.maxHeaderBytes
  }

  /** Section 8.1.1: a field that is not allowed, wrong pseudo-header fields, or trailers that
      do not end the request. */
  predicate Improper(cfg: Config, c: Conn, x: Input) {
    || (exists f :: f in FieldsOf(cfg, c, x) && cfg.prohibited(f, Trailing(c, x)))
    || (if Trailing(c, x) then !Ending(c, x) else !cfg.validPseudo(FieldsOf(cfg, c, x)))
  }

  lemma {:induction false} FieldOctetsSnoc(fields: seq<Field>, f: Field)
    ensures FieldOctets(fields + [f]) == FieldOctets(fields) + |f.name| + |f.value|
  {
    if fields == [] {
      assert fields + [f] == [f];
    } else {
      assert (fields + [f])[1..] == fields[1..] + [f];
      FieldOctetsSnoc(fields[1..], f);
    }
  }

  lemma {:induction false} SizeIsOctets(fields: seq<Field>)
    ensures ListSize(fields) == FieldOctets(fields) + 32 * |fields|
  {
    if fields != [] {
      var init, f := fields[..|fields| - 1], fields[|fields| - 1];
      SizeIsOctets(init);
      FieldOctetsSnoc(init, f);
      assert fields == init + [f];
    }
  }

  /** What the handler tests is what the section should be. */
  lemma TestsMeanThat(cfg: Config, c: Conn, x: Input)
    ensures Oversized(cfg, c, x) <==> ListSize(FieldsOf(cfg, c, x)) > cfg.maxHeaderBytes
    ensures Improper(cfg, c, x) <==> Malformed(cfg, FieldsOf(cfg, c, x), Ending(c, x), Trailing(c, x))
  {
    var fields := FieldsOf(cfg, c, x);
    SizeIsOctets(fields);
    if exists f :: f in fields && cfg.prohibited(f, Trailing(c, x)) {
      var f :| f in fields && cfg.prohibited(f, Trailing(c, x));
      var i :| 0 <= i < |fields| && fields[i] == f;
    }
    if exists i :: 0 <= i < |fields| && cfg.prohibited(fields[i], Trailing(c, x)) {
      var i :| 0 <= i < |fields| && cfg.prohibited(fields[i], Trailing(c, x));
      assert fields[i] in fields;
    }
  }

  /** The request or trailer section is as it should be. */
  predicate Proper(cfg: Config, c: Conn, x: Input) {
    Heard(c, x) && !Oversized(cfg, c, x) && !Before(c, x).ended && !Improper(cfg, c, x)
  }

  function Section(cfg: Config, c: Conn, x: Input): Event {
    if Trailing(c, x) then Trailers(FieldsOf(cfg, c, x), Ending(c, x)) else Headers(FieldsOf(cfg, c, x), Ending(c, x))
  }

  // ---------------------------------------------------------------- connection errors

  /** Section 6.10 of RFC 9113: while a block is open only its CONTINUATION may come, and
      CONTINUATION only then. */
  predicate OutOfTurn(c: Conn, x: Input) {
    if x.ContinuationFrame? then c.pending.None? || c.pending.value.id != x.id
    else c.pending.Some? && (x.DataFrame? || x.HeadersFrame? || x.RstFrame? || x.OtherFrame?)
  }

  /** Section 5.1.1: an identifier no client may use here. */
  predicate BadIdentifier(c: Conn, x: Input) {
    match x
    case DataFrame(id, _, _, _) => id % 2 == 0 || id > c.maxClient
    case HeadersFrame(id, _, _, _, _) => id % 2 == 0 || (!Live(c, id) && id <= c.maxClient)
    case RstFrame(id, idlePush, _) => if id % 2 == 0 then idlePush else id > c.maxClient
    case _ => false
  }

  /** A block too long to be kept open, or to be completed. */
  predicate BlockTooLong(cfg: Config, c: Conn, x: Input) {
    || (x.HeadersFrame? && !x.endHeaders && |x.frag| > cfg.maxHeaderBytes)
    || (x.ContinuationFrame? && c.pending.Some? && |c.pending.value.buf| + |x.frag| > cfg.maxHeaderBytes)
  }

  predicate Undecodable(cfg: Config, c: Conn, x: Input) { Whole(c, x).Some? && cfg.decode(c.fed, Whole(c, x).value.block).None? }

  predicate OverBudget(cfg: Config, c: Conn, x: Input) {
    cfg.resetBudget > 0 && ResetBudget.Rapid(c, x) && c.rapid >= cfg.resetBudget
  }

  function ErrorOf(cfg: Config, c: Conn, x: Input): Option<ErrCode> {
    if OutOfTurn(c, x) || BadIdentifier(c, x) then Some(ProtocolError)
    else if x.DataFrame? && x.overdrawn then Some(FlowControlError)
    else if BlockTooLong(cfg, c, x) || OverBudget(cfg, c, x) then Some(EnhanceYourCalm)
    else if Undecodable(cfg, c, x) then Some(CompressionError)
    else None
  }

  lemma EmitFails(cfg: Config, c: Conn, id: StreamId, block: Block, end: bool, trailer: bool)
    requires id in c.streams
    ensures Emit(cfg, c, id, block, end, trailer).err == if cfg.decode(c.fed, block).None? then Some(CompressionError) else None
  {
  }

  lemma HeadersFail(cfg: Config, c: Conn, x: Input)
    requires x.HeadersFrame?
    ensures Receive(cfg, c, x).err == ErrorOf(cfg, c, x)
  {
    if Heard(c, x) {
      var started := if Live(c, x.id) then c else Register(c, x.id, true);
      EmitFails(cfg, if Trailing(c, x) then started else RecordFields(started, x.id), x.id, x.frag, x.end, Trailing(c, x));
    }
  }

  lemma ContinuationFails(cfg: Config, c: Conn, x: Input)
    requires x.ContinuationFrame?
    ensures Receive(cfg, c, x).err == ErrorOf(cfg, c, x)
  {
    if Heard(c, x) {
      var p := c.pending.value;
      EmitFails(cfg, if p.trailer then c else RecordFields(c, x.id), x.id, p.buf + x.frag, p.end, p.trailer);
    }
  }

  /** Every connection error and its code, in terms of the frame and the state before it. */
  lemma FailsExactly(cfg: Config, c: Conn, x: Input)
    ensures Receive(cfg, c, x).err == ErrorOf(cfg, c, x)
  {
    if x.HeadersFrame? {
      HeadersFail(cfg, c, x);
    } else if x.ContinuationFrame? {
      ContinuationFails(cfg, c, x);
    }
  }

  // ---------------------------------------------------------------- answers

  /** What the reader writes on its own account. */
  function Answers(cfg: Config, c: Conn, x: Input): seq<Answer> {
    if x.DataFrame? then if Live(c, x.id) && c.streams[x.id].ended then [Rst(x.id, StreamClosed)] else []
    else if x.HeadersFrame? && !Live(c, x.id) && !x.admitted then [Rst(x.id, RefusedStream)]
    else if x.Seed? && !x.admission.Admitted? then [Rst(1, RefusedStream)]
    else if !Carries(x) || !Heard(c, x) then []
    else if Oversized(cfg, c, x) then if Before(c, x).reset || Before(c, x).localEnded then [] else [TooLarge(x.id)]
    else if Before(c, x).ended then [Rst(x.id, StreamClosed)]
    else if Improper(cfg, c, x) then [Rst(x.id, ProtocolError)]
    else []
  }

  /** The same for one complete block. */
  function BlockAnswers(cfg: Config, s: Stream, id: StreamId, fields: seq<Field>, end: bool, trailer: bool): seq<Answer> {
    if ListSize(fields) > cfg.maxHeaderBytes then if s.reset || s.localEnded then [] else [TooLarge(id)]
    else if s.ended then [Rst(id, StreamClosed)]
    else if Malformed(cfg, fields, end, trailer) then [Rst(id, ProtocolError)]
    else []
  }

  lemma EmitAnswers(cfg: Config, c: Conn, id: StreamId, block: Block, end: bool, trailer: bool)
    requires Live(c, id) && cfg.decode(c.fed, block).Some?
    ensures Emit(cfg, c, id, block, end, trailer).c.sent
         == c.sent + BlockAnswers(cfg, c.streams[id], id, cfg.decode(c.fed, block).value, end, trailer)
  {
  }

  lemma HeadersAnswer(cfg: Config, c: Conn, x: Input)
    requires x.HeadersFrame? && Receive(cfg, c, x).err.None?
    ensures Receive(cfg, c, x).c.sent == c.sent + Answers(cfg, c, x)
  {
    FailsExactly(cfg, c, x);
    TestsMeanThat(cfg, c, x);
    if Heard(c, x) {
      var started := if Live(c, x.id) then c else Register(c, x.id, true);
      EmitAnswers(cfg, if Trailing(c, x) then started else RecordFields(started, x.id), x.id, x.frag, x.end, Trailing(c, x));
    }
  }

  lemma ContinuationAnswers(cfg: Config, c: Conn, x: Input)
    requires x.ContinuationFrame? && Receive(cfg, c, x).err.None?
    ensures Receive(cfg, c, x).c.sent == c.sent + Answers(cfg, c, x)
  {
    FailsExactly(cfg, c, x);
    TestsMeanThat(cfg, c, x);
    if Heard(c, x) {
      var p := c.pending.value;
      EmitAnswers(cfg, if p.trailer then c else RecordFields(c, x.id), x.id, p.buf + x.frag, p.end, p.trailer);
    }
  }

  /** Exactly what the reader answers: DATA after the end of the request is reset with
      STREAM_CLOSED, and so is a field section; a stream there is no room for with
      REFUSED_STREAM; a malformed section with PROTOCOL_ERROR; an oversized one gets
      431 if the stream still takes frames; and nothing else is answered. */
  lemma AnswersExactly(cfg: Config, c: Conn, x: Input)
    requires Receive(cfg, c, x).err.None?
    ensures Receive(cfg, c, x).c.sent == c.sent + Answers(cfg, c, x)
  {
    if x.HeadersFrame? {
      HeadersAnswer(cfg, c, x);
    } else if x.ContinuationFrame? {
      ContinuationAnswers(cfg, c, x);
    }
  }

  // ---------------------------------------------------------------- streams, field by field

  predicate Concerns(x: Input, id: StreamId) {
    match x
    case OtherFrame => false
    case Seed(_, _) => id == 1
    case _ => x.id == id
  }

  /** The input puts a new stream under the identifier. */
  predicate Begins(c: Conn, x: Input, id: StreamId) {
    && Concerns(x, id)
    && ((x.HeadersFrame? && !Live(c, id)) || (x.Seed? && (!x.admission.AtLimit? || id !in c.streams)))
  }

  /** The stream as the input finds it. */
  function Found(c: Conn, x: Input, id: StreamId): Stream {
    if Begins(c, x, id) || id !in c.streams then FRESH else c.streams[id]
  }

  /** The event the input has for the application. */
  function Offer(cfg: Config, c: Conn, x: Input): Option<Event> {
    match x
    case DataFrame(id, data, end, _) => if Live(c, id) && !c.streams[id].ended then Some(Data(data, end)) else None
    case RstFrame(id, _, _) => if Live(c, id) then Some(Reset) else None
    case Seed(fields, admission) => if admission.Admitted? then Some(Headers(fields, true)) else None
    case HeadersFrame(_, _, _, _, _) => if Proper(cfg, c, x) then Some(Section(cfg, c, x)) else None
    case ContinuationFrame(_, _, _) => if Proper(cfg, c, x) then Some(Section(cfg, c, x)) else None
    case _ => None
  }

  predicate Room(cfg: Config, s: Stream) { s.read + cfg.eventBuf > |s.log| }

  /** The event says that the request is over. */
  predicate Final(e: Option<Event>) { e.Some? && !e.value.Reset? && e.value.end }

  /** The reader resets the stream, or the upgrade's request is refused in its place. */
  predicate TurnedAway(cfg: Config, c: Conn, x: Input) { Answers(cfg, c, x) != [] && Answers(cfg, c, x)[0].Rst? }

  /** It answers 431, which ends the response. */
  predicate AnsweredTooLarge(cfg: Config, c: Conn, x: Input) { Answers(cfg, c, x) != [] && Answers(cfg, c, x)[0].TooLarge? }

  /** The refused upgrade found a stream 1 of the client's, which it pushes aside. */
  predicate PushedAside(c: Conn, x: Input) { x.Seed? && x.admission.AtLimit? && 1 in c.streams }

  predicate Concluded(s: Stream) { s.reset || (s.ended && s.localEnded) }

  function Expected(cfg: Config, c: Conn, x: Input, s: Stream): Stream {
    var offer := Offer(cfg, c, x);
    var clientReset := x.RstFrame? && s.live;
    Stream(
      live :=
        && s.live && !TurnedAway(cfg, c, x) && !clientReset && !(Final(offer) && s.localEnded)
        && !(Carries(x) && Heard(c, x) && Oversized(cfg, c, x)) && !(x.AppRelease? && Concluded(s)),
      recvd := s.recvd || (Carries(x) && Heard(c, x) && !Trailing(c, x)) || (x.Seed? && x.admission.Admitted?),
      ended := s.ended || Final(offer) || clientReset,
      localEnded := s.localEnded || x.AppEnd? || AnsweredTooLarge(cfg, c, x),
      reset :=
        || s.reset || clientReset || x.AppReset? || (offer.Some? && !Room(cfg, s))
        || (TurnedAway(cfg, c, x) && !PushedAside(c, x)),
      log := if offer.Some? && Room(cfg, s) then s.log + [offer.value] else s.log,
      read := if x.AppRecv? && s.read < |s.log| then s.read + 1 else s.read)
  }

  ghost predicate AsExpected(cfg: Config, c: Conn, x: Input, r: Conn, id: StreamId) {
    && (id in r.streams <==> id in c.streams || Begins(c, x, id))
    && (id in r.streams ==> r.streams[id] == if Concerns(x, id) then Expected(cfg, c, x, Found(c, x, id)) else c.streams[id])
  }

  lemma DataAsExpected(cfg: Config, c: Conn, x: Input, id: StreamId)
    requires x.DataFrame? && Receive(cfg, c, x).err.None?
    ensures AsExpected(cfg, c, x, Receive(cfg, c, x).c, id)
  {
  }

  lemma RstAsExpected(cfg: Config, c: Conn, x: Input, id: StreamId)
    requires x.RstFrame? && Receive(cfg, c, x).err.None?
    ensures AsExpected(cfg, c, x, Receive(cfg, c, x).c, id)
  {
  }

  lemma SeedAsExpected(cfg: Config, c: Conn, x: Input, id: StreamId)
    requires x.Seed?
    ensures AsExpected(cfg, c, x, Receive(cfg, c, x).c, id)
  {
  }

  lemma OthersAsExpected(cfg: Config, c: Conn, x: Input, id: StreamId)
    requires x.OtherFrame? || x.AppReset? || x.AppRelease? || x.AppEnd? || x.AppRecv?
    requires Receive(cfg, c, x).err.None?
    ensures AsExpected(cfg, c, x, Receive(cfg, c, x).c, id)
  {
  }

  /** One complete block. */
  predicate BlockAsExpected(cfg: Config, s: Stream, r: Stream, id: StreamId, fields: seq<Field>, end: bool, trailer: bool) {
    var answers := BlockAnswers(cfg, s, id, fields, end, trailer);
    var long := ListSize(fields) > cfg.maxHeaderBytes;
    var shown := !long && !s.ended && !Malformed(cfg, fields, end, trailer);
    r == s.(
      live := s.live && !(answers != [] && answers[0].Rst?) && !long && !(shown && end && s.localEnded),
      ended := s.ended || (shown && end),
      localEnded := s.localEnded || (answers != [] && answers[0].TooLarge?),
      reset := s.reset || (answers != [] && answers[0].Rst?) || (shown && !Room(cfg, s)),
      log := if shown && Room(cfg, s) then s.log + [if trailer then Trailers(fields, end) else Headers(fields, end)] else s.log)
  }

  lemma EmitAsExpected(cfg: Config, c: Conn, id: StreamId, block: Block, end: bool, trailer: bool)
    requires Live(c, id) && cfg.decode(c.fed, block).Some?
    ensures var r := Emit(cfg, c, id, block, end, trailer).c;
      && r.streams.Keys == c.streams.Keys && (forall k | k in c.streams && k != id :: r.streams[k] == c.streams[k])
      && BlockAsExpected(cfg, c.streams[id], r.streams[id], id, cfg.decode(c.fed, block).value, end, trailer)
  {
  }

  lemma BlockIsExpected(cfg: Config, c: Conn, x: Input, r: Stream)
    requires Carries(x) && Heard(c, x)
    requires var s := Before(c, x);
      BlockAsExpected(cfg, if Trailing(c, x) then s else s.(recvd := true), r, x.id, FieldsOf(cfg, c, x), Ending(c, x), Trailing(c, x))
    ensures r == Expected(cfg, c, x, Before(c, x))
  {
    TestsMeanThat(cfg, c, x);
  }

  /** The connection when the complete block is handed over. */
  function HandedOver(c: Conn, x: Input): Conn
    requires Carries(x) && Heard(c, x)
  {
    var started := if Live(c, x.id) then c else Register(c, x.id, true);
    if Trailing(c, x) then started else RecordFields(started, x.id)
  }

  lemma HeardEmits(cfg: Config, c: Conn, x: Input)
    requires Carries(x) && Heard(c, x) && Receive(cfg, c, x).err.None?
    ensures var d := HandedOver(c, x);
      && Live(d, x.id) && d.fed == c.fed && Whole(c, x).Some? && cfg.decode(c.fed, Whole(c, x).value.block).Some?
      && Receive(cfg, c, x) == Emit(cfg, d, x.id, Whole(c, x).value.block, Ending(c, x), Trailing(c, x))
  {
    FailsExactly(cfg, c, x);
  }

  lemma HeardAsExpected(cfg: Config, c: Conn, x: Input, id: StreamId)
    requires Carries(x) && Heard(c, x) && Receive(cfg, c, x).err.None?
    ensures AsExpected(cfg, c, x, Receive(cfg, c, x).c, id)
  {
    var d := HandedOver(c, x);
    HeardEmits(cfg, c, x);
    EmitAsExpected(cfg, d, x.id, Whole(c, x).value.block, Ending(c, x), Trailing(c, x));
    BlockIsExpected(cfg, c, x, Receive(cfg, c, x).c.streams[x.id]);
  }

  lemma UnheardAsExpected(cfg: Config, c: Conn, x: Input, id: StreamId)
    requires Carries(x) && !Heard(c, x) && Receive(cfg, c, x).err.None?
    ensures AsExpected(cfg, c, x, Receive(cfg, c, x).c, id)
  {
  }

  /** What becomes of every stream, one fact at a time: the one the input concerns as
      Expected says, the others not at all. */
  lemma StreamsExactly(cfg: Config, c: Conn, x: Input, id: StreamId)
    requires Receive(cfg, c, x).err.None?
    ensures AsExpected(cfg, c, x, Receive(cfg, c, x).c, id)
  {
    if Carries(x) && Heard(c, x) {
      HeardAsExpected(cfg, c, x, id);
    } else if Carries(x) {
      UnheardAsExpected(cfg, c, x, id);
    } else if x.DataFrame? {
      DataAsExpected(cfg, c, x, id);
    } else if x.RstFrame? {
      RstAsExpected(cfg, c, x, id);
    } else if x.Seed? {
      SeedAsExpected(cfg, c, x, id);
    } else {
      OthersAsExpected(cfg, c, x, id);
    }
  }

  // ---------------------------------------------------------------- runs

  function AllAnswers(cfg: Config, run: seq<Input>): seq<Answer> {
    if run == [] then []
    else AllAnswers(cfg, run[..|run| - 1]) + Answers(cfg, Exec(cfg, run[..|run| - 1]).c, run[|run| - 1])
  }

  /** All that the reader has written over a run. */
  lemma {:induction false} SentIsAnswers(cfg: Config, run: seq<Input>)
    requires Exec(cfg, run).err.None?
    ensures Exec(cfg, run).c.sent == AllAnswers(cfg, run)
  {
    if run != [] {
      var init := run[..|run| - 1];
      SentIsAnswers(cfg, init);
      AnswersExactly(cfg, Exec(cfg, init).c, run[|run| - 1]);
    }
  }

  /** The highest identifier a client has opened, or the upgrade for it. */
  function Highest(run: seq<Input>): nat {
    if run == [] then 0
    else
      var h, x := Highest(run[..|run| - 1]), run[|run| - 1];
      if x.HeadersFrame? then Max(h, x.id) else if x.Seed? then Max(h, 1) else h
  }

  lemma HighestMoves(cfg: Config, c: Conn, x: Input)
    requires Receive(cfg, c, x).err.None? && (x.HeadersFrame? && Live(c, x.id) ==> x.id <= c.maxClient)
    ensures Receive(cfg, c, x).c.maxClient
         == if x.HeadersFrame? then Max(c.maxClient, x.id) else if x.Seed? then Max(c.maxClient, 1) else c.maxClient
  {
    if Carries(x) && Heard(c, x) {
      HeardEmits(cfg, c, x);
    }
  }

  /** Over every run the identifiers up to the highest opened one are used up, and
      streams exist under no others. */
  lemma {:induction false} HighestIsOpened(cfg: Config, run: seq<Input>)
    requires Exec(cfg, run).err.None?
    ensures Exec(cfg, run).c.maxClient == Highest(run)
    ensures forall id | id in Exec(cfg, run).c.streams :: id <= Exec(cfg, run).c.maxClient
  {
    if run != [] {
      var init, x := run[..|run| - 1], run[|run| - 1];
      var c := Exec(cfg, init).c;
      HighestIsOpened(cfg, init);
      HighestMoves(cfg, c, x);
      forall id | id in Receive(cfg, c, x).c.streams
        ensures id <= Receive(cfg, c, x).c.maxClient
      {
        StreamsExactly(cfg, c, x, id);
      }
    }
  }

  /** The block a HEADERS frame leaves open remembers what the frame said. */
  predicate Remembers(c: Conn, x: Input, p: Pending) {
    x.HeadersFrame? && p.id == x.id && p.end == x.end && p.trailer == Trailing(c, x) && p.discard == !(Live(c, x.id) || x.admitted)
  }

  /** The number of inputs before the last HEADERS frame. */
  function LastHeaders(run: seq<Input>): nat {
    if run == [] then 0 else if run[|run| - 1].HeadersFrame? then |run| - 1 else LastHeaders(run[..|run| - 1])
  }

  lemma PendingMoves(cfg: Config, c: Conn, x: Input)
    requires Receive(cfg, c, x).err.None? && Receive(cfg, c, x).c.pending.Some?
    ensures var p := Receive(cfg, c, x).c.pending.value;
      if x.HeadersFrame? then Remembers(c, x, p)
      else c.pending.Some? && p == c.pending.value.(buf := p.buf)
  {
    if Carries(x) && Heard(c, x) {
      HeardEmits(cfg, c, x);
    }
  }

  /** Over every run, an open block remembers what its HEADERS frame said and found: whose
      it is, whether it ends the request, is a trailer section, or will be dropped. */
  lemma {:induction false} OpenBlockRemembers(cfg: Config, run: seq<Input>)
    requires Exec(cfg, run).err.None? && Exec(cfg, run).c.pending.Some?
    ensures LastHeaders(run) < |run|
    ensures var k := LastHeaders(run); Remembers(Exec(cfg, run[..k]).c, run[k], Exec(cfg, run).c.pending.value)
  {
    if run != [] {
      var init, x := run[..|run| - 1], run[|run| - 1];
      PendingMoves(cfg, Exec(cfg, init).c, x);
      if !x.HeadersFrame? {
        OpenBlockRemembers(cfg, init);
        assert init[..LastHeaders(init)] == run[..LastHeaders(init)];
      }
    }
  }

  /** After every run: a block that completes in its turn on a registered stream whose
      request is open, decodes, is within the limit and not malformed, and finds room
      in the event buffer is shown to the application as one event with those fields.
      Nothing is answered, nothing is reset, and no other stream is touched. */
  lemma ProperIsDelivered(cfg: Config, run: seq<Input>, x: Input)
    requires Exec(cfg, run).err.None? && Carries(x)
    requires var c := Exec(cfg, run).c;
      !OutOfTurn(c, x) && !BadIdentifier(c, x) && !BlockTooLong(cfg, c, x) && !Undecodable(cfg, c, x)
    requires Proper(cfg, Exec(cfg, run).c, x) && Room(cfg, Before(Exec(cfg, run).c, x))
    ensures var c, r, s := Exec(cfg, run).c, Receive(cfg, Exec(cfg, run).c, x), Before(Exec(cfg, run).c, x);
      && r.err.None? && r.c.sent == c.sent && x.id in r.c.streams
      && r.c.streams[x.id].log == s.log + [Section(cfg, c, x)] && r.c.streams[x.id].reset == s.reset
      && (r.c.streams[x.id].live <==> !(Ending(c, x) && s.localEnded))
      && (forall id | id in c.streams && id != x.id :: id in r.c.streams && r.c.streams[id] == c.streams[id])
  {
    var c := Exec(cfg, run).c;
    FailsExactly(cfg, c, x);
    AnswersExactly(cfg, c, x);
    StreamsExactly(cfg, c, x, x.id);
    forall id | id in c.streams && id != x.id
      ensures id in Receive(cfg, c, x).c.streams && Receive(cfg, c, x).c.streams[id] == c.streams[id]
    {
      StreamsExactly(cfg, c, x, id);
    }
  }
}
