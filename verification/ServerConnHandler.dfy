/** The reader's callbacks as the source writes them: an object whose fields change
    frame by frame. Every method is proved to do what its namesake in Inbound does,
    so the theorems over runs hold of the object. */
module ServerConnHandler {
  import opened Windows
  import opened Inbound

  /** The extent of one decoded field inside fieldBuf. */
  datatype FieldSpan = FieldSpan(nameLen: nat, valLen: nat, indexing: nat)

  // ---------------------------------------------------------------- the decode visitor

  /** Names and values of a field list, back to back. */
  function Packed(fields: seq<Field>): seq<Byte> {
    if fields == [] then []
    else Packed(fields[..|fields| - 1]) + fields[|fields| - 1].name + fields[|fields| - 1].value
  }

  function SpanOf(f: Field): FieldSpan { FieldSpan(|f.name|, |f.value|, f.indexing) }

  predicate Spans(fields: seq<Field>, spans: seq<FieldSpan>) {
    |spans| == |fields| && forall i :: 0 <= i < |fields| ==> spans[i] == SpanOf(fields[i])
  }

  lemma PackedSnoc(fields: seq<Field>, i: nat)
    requires i < |fields|
    ensures Packed(fields[..i + 1]) == Packed(fields[..i]) + fields[i].name + fields[i].value
    ensures ListSize(fields[..i + 1]) == ListSize(fields[..i]) + EntrySize(fields[i])
  {
    assert fields[..i + 1][..i] == fields[..i];
  }

  lemma {:induction false} PackedIsPrefix(fields: seq<Field>, i: nat)
    requires i <= |fields|
    ensures Packed(fields[..i]) <= Packed(fields)
    decreases |fields| - i
  {
    if i < |fields| {
      PackedSnoc(fields, i);
      PackedIsPrefix(fields, i + 1);
    } else {
      assert fields[..i] == fields;
    }
  }

  /** The visitor DecodeBlock calls for each field. It flags what it finds and keeps
      going, and stops collecting once the list is too large. */
  method Visit(cfg: Config, fields: seq<Field>, trailer: bool)
    returns (malformed: bool, oversized: bool, fieldBuf: seq<Byte>, spans: seq<FieldSpan>)
    ensures malformed <==> exists i :: 0 <= i < |fields| && cfg.prohibited(fields[i], trailer)
    ensures oversized <==> ListSize(fields) > cfg.maxHeaderBytes
    ensures !oversized ==> fieldBuf == Packed(fields) && Spans(fields, spans)
  {
    malformed, oversized, fieldBuf, spans := false, false, [], [];
    var listSize := 0;
    for i := 0 to |fields|
      invariant listSize == ListSize(fields[..i])
      invariant malformed <==> exists j :: 0 <= j < i && cfg.prohibited(fields[j], trailer)
      invariant oversized <==> listSize > cfg.maxHeaderBytes
      invariant !oversized ==> fieldBuf == Packed(fields[..i]) && Spans(fields[..i], spans)
    {
      var f := fields[i];
      PackedSnoc(fields, i);
      if !malformed && cfg.prohibited(f, trailer) {
        malformed := true;
      }
      listSize := listSize + |f.name| + |f.value| + FIELD_ENTRY_OVERHEAD;
      if listSize > cfg.maxHeaderBytes {
        oversized := true;
      } else if !oversized {
        fieldBuf := fieldBuf + f.name + f.value;
        spans := spans + [FieldSpan(|f.name|, |f.value|, f.indexing)];
      }
    }
    assert fields[..|fields|] == fields;
  }

  /** Cut fieldBuf up again: the spans give back exactly the fields that went in. */
  method Materialise(fieldBuf: seq<Byte>, spans: seq<FieldSpan>, ghost fields: seq<Field>) returns (scratch: seq<Field>)
    requires fieldBuf == Packed(fields) && Spans(fields, spans)
    ensures scratch == fields
  {
    scratch := [];
    var off := 0;
    for i := 0 to |spans|
      invariant off == |Packed(fields[..i])|
      invariant scratch == fields[..i]
    {
      PackedSnoc(fields, i);
      PackedIsPrefix(fields, i + 1);
      var nameEnd := off + spans[i].nameLen;
      var valEnd := nameEnd + spans[i].valLen;
      assert fieldBuf[..valEnd] == Packed(fields[..i + 1]);
      assert fieldBuf[off..nameEnd] == fieldBuf[..valEnd][off..nameEnd] == fields[i].name;
      assert fieldBuf[nameEnd..valEnd] == fieldBuf[..valEnd][nameEnd..valEnd] == fields[i].value;
      scratch := scratch + [Field(fieldBuf[off..nameEnd], fieldBuf[nameEnd..valEnd], spans[i].indexing)];
      off := valEnd;
    }
  }

  /** One slab the event owns, holding the same fields. */
  method OwnedCopy(scratch: seq<Field>) returns (copied: seq<Field>)
    ensures copied == scratch
  {
    var slab: seq<Byte> := [];
    copied := [];
    for i := 0 to |scratch|
      invariant copied == scratch[..i]
    {
      var f := scratch[i];
      var nameOff := |slab|;
      slab := slab + f.name;
      var valOff := |slab|;
      slab := slab + f.value;
      assert slab[nameOff..valOff] == f.name && slab[valOff..|slab|] == f.value;
      copied := copied + [Field(slab[nameOff..valOff], slab[valOff..|slab|], f.indexing)];
    }
  }

  // ---------------------------------------------------------------- the handler

  class Handler {
    const cfg: Config

    var pendingStreamId: StreamId
    var pendingBuf: Block
    var pendingEndStream: bool
    var pendingTrailer: bool
    var pendingDiscard: bool

    // The decoder's input so far, the stream table and the answers written.
    var fed: seq<Block>
    var maxClient: nat
    var streams: map<StreamId, Stream>
    var sent: seq<Answer>
    var rapidResetCount: nat

    /** What the fields stand for: identifier 0 means no block is open. */
    function Model(): Conn
      reads this
    {
      Conn(if pendingStreamId == 0 then None
           else Some(Pending(pendingStreamId, pendingBuf, pendingEndStream, pendingTrailer, pendingDiscard)),
           fed, maxClient, streams, sent, rapidResetCount)
    }

    constructor (cfg: Config)
      ensures this.cfg == cfg && Model() == START
    {
      this.cfg := cfg;
      pendingStreamId, pendingBuf, pendingEndStream, pendingTrailer, pendingDiscard := 0, [], false, false, false;
      fed, maxClient, streams, sent, rapidResetCount := [], 0, map[], [], 0;
    }

    predicate Found(id: StreamId)
      reads this
      ensures Found(id) <==> Live(Model(), id)
    {
      id in streams && streams[id].live
    }

    method PushEvent(id: StreamId, e: Event)
      requires id in streams
      modifies this`streams
      ensures streams == old(streams)[id := Push(cfg, old(streams[id]), e)]
    {
      var s := streams[id];
      if |s.log| < s.read + cfg.eventBuf {
        streams := streams[id := s.(log := s.log + [e])];
      } else {
        streams := streams[id := s.(reset := true)];
      }
    }

    method WriteRst(id: StreamId, code: ErrCode)
      requires id in streams
      modifies this`streams, this`sent
      ensures Model() == ResetStream(old(Model()), id, code)
    {
      streams := streams[id := streams[id].(reset := true)];
      sent := sent + [Rst(id, code)];
      streams := streams[id := streams[id].(live := false)];
    }

    method RespondFieldsTooLarge(id: StreamId)
      modifies this`streams, this`sent
      ensures Model() == RespondTooLarge(old(Model()), id)
    {
      if Found(id) {
        if !streams[id].reset && !streams[id].localEnded {
          streams := streams[id := streams[id].(localEnded := true)];
          sent := sent + [TooLarge(id)];
        }
        streams := streams[id := streams[id].(live := false)];
      }
    }

    /** markRemoteEnd, push, and release when both halves have ended. */
    method DeliverEvent(id: StreamId, e: Event, end: bool)
      requires id in streams
      modifies this`streams
      ensures Model() == Deliver(cfg, old(Model()), id, e, end)
    {
      var fullyClosed := end && streams[id].localEnded;
      if end {
        streams := streams[id := streams[id].(ended := true)];
      }
      PushEvent(id, e);
      if fullyClosed {
        streams := streams[id := streams[id].(live := false)];
      }
    }

    method DiscardHeaderBlock(hb: Block) returns (err: Option<ErrCode>)
      modifies this`pendingStreamId, this`pendingDiscard, this`fed
      ensures Outcome(Model(), err) == Discard(cfg, old(Model()), hb)
    {
      pendingStreamId, pendingDiscard := 0, false;
      var decoded := cfg.decode(fed, hb);
      fed := fed + [hb];
      err := if decoded.None? then Some(CompressionError) else None;
    }

    method EmitHeaderBlock(id: StreamId, hb: Block, endStream: bool, isTrailer: bool) returns (err: Option<ErrCode>)
      requires id in streams && streams[id].live
      modifies this`pendingStreamId, this`fed, this`streams, this`sent
      ensures Outcome(Model(), err) == Emit(cfg, old(Model()), id, hb, endStream, isTrailer)
    {
      pendingStreamId := 0;
      var decoded := cfg.decode(fed, hb);
      fed := fed + [hb];
      if decoded.None? {
        return Some(CompressionError);
      }
      var malformed, oversized, fieldBuf, spans := Visit(cfg, decoded.value, isTrailer);
      if oversized {
        RespondFieldsTooLarge(id);
        return None;
      }
      var scratch := Materialise(fieldBuf, spans, decoded.value);
      if streams[id].ended {
        WriteRst(id, StreamClosed);
        return None;
      }
      if !isTrailer && !cfg.validPseudo(scratch) {
        malformed := true;
      }
      if isTrailer && !endStream {
        malformed := true;
      }
      if malformed {
        WriteRst(id, ProtocolError);
        return None;
      }
      var copied := OwnedCopy(scratch);
      DeliverEvent(id, if isTrailer then Trailers(copied, endStream) else Headers(copied, endStream), endStream);
      return None;
    }

    /** overdrawn: onDataReceived found a window overdrawn. */
    method HandleData(id: StreamId, p: seq<Byte>, end: bool, overdrawn: bool) returns (err: Option<ErrCode>)
      modifies this`streams, this`sent
      ensures Outcome(Model(), err) == OnData(cfg, old(Model()), id, p, end, overdrawn)
    {
      if pendingStreamId != 0 || id % 2 == 0 || id > maxClient {
        return Some(ProtocolError);
      }
      if overdrawn {
        return Some(FlowControlError);
      }
      if !Found(id) {
        return None;
      }
      if streams[id].ended {
        WriteRst(id, StreamClosed);
        return None;
      }
      DeliverEvent(id, Data(p, end), end);
      return None;
    }

    method RegisterStream(id: StreamId, admitted: bool)
      modifies this`streams, this`sent, this`maxClient
      ensures Model() == Register(old(Model()), id, admitted)
    {
      streams := streams[id := FRESH];
      maxClient := id;
      if !admitted {
        WriteRst(id, RefusedStream);
      }
    }

    method HandleHeaders(id: StreamId, hb: Block, end: bool, endHeaders: bool, admitted: bool) returns (err: Option<ErrCode>)
      modifies this
      ensures Outcome(Model(), err) == OnHeaders(cfg, old(Model()), id, hb, end, endHeaders, admitted)
    {
      if pendingStreamId != 0 || id % 2 == 0 {
        return Some(ProtocolError);
      }
      var isNew, refused := !Found(id), false;
      if isNew {
        if id <= maxClient {
          return Some(ProtocolError);
        }
        RegisterStream(id, admitted);
        refused := !admitted;
      }
      if !endHeaders {
        if |hb| > cfg.maxHeaderBytes {
          RespondFieldsTooLarge(id);
          return Some(EnhanceYourCalm);
        }
        pendingStreamId, pendingBuf, pendingEndStream, pendingDiscard := id, hb, end, refused;
        pendingTrailer := !isNew && streams[id].recvd;
        return None;
      }
      if refused {
        err := DiscardHeaderBlock(hb);
        return;
      }
      var isTrailer := !isNew && streams[id].recvd;
      if !isTrailer {
        streams := streams[id := streams[id].(recvd := true)];
      }
      err := EmitHeaderBlock(id, hb, end, isTrailer);
    }

    method HandleContinuation(id: StreamId, hb: Block, endHeaders: bool) returns (err: Option<ErrCode>)
      modifies this
      ensures Outcome(Model(), err) == OnContinuation(cfg, old(Model()), id, hb, endHeaders)
    {
      if pendingStreamId == 0 || id != pendingStreamId {
        return Some(ProtocolError);
      }
      if |pendingBuf| + |hb| > cfg.maxHeaderBytes {
        RespondFieldsTooLarge(id);
        return Some(EnhanceYourCalm);
      }
      pendingBuf := pendingBuf + hb;
      if !endHeaders {
        return None;
      }
      if pendingDiscard || !Found(id) {
        err := DiscardHeaderBlock(pendingBuf);
        return;
      }
      var isTrailer := pendingTrailer;
      if !isTrailer {
        streams := streams[id := streams[id].(recvd := true)];
      }
      err := EmitHeaderBlock(id, pendingBuf, pendingEndStream, isTrailer);
    }

    /** A reset is charged when the client tears down a request that is still open, or
        names a stream already gone. */
    method OnClientRst(rapid: bool) returns (err: Option<ErrCode>)
      modifies this`rapidResetCount
      ensures Outcome(Model(), err) == Charged(cfg, old(Model()), rapid)
    {
      if cfg.resetBudget == 0 || !rapid {
        return None;
      }
      rapidResetCount := rapidResetCount + 1;
      return if rapidResetCount > cfg.resetBudget then Some(EnhanceYourCalm) else None;
    }

    method HandleRst(id: StreamId, idlePush: bool, livePush: bool) returns (err: Option<ErrCode>)
      modifies this`streams, this`rapidResetCount
      ensures Outcome(Model(), err) == OnRst(cfg, old(Model()), id, idlePush, livePush)
    {
      if pendingStreamId != 0 || (if id % 2 == 0 then idlePush else id > maxClient) {
        return Some(ProtocolError);
      }
      var rapid := if id % 2 == 0 then !livePush else true;
      if Found(id) {
        rapid := if id % 2 == 0 then rapid else !streams[id].ended;
        streams := streams[id := streams[id].(ended := true, reset := true)];
        PushEvent(id, Reset);
        streams := streams[id := streams[id].(live := false)];
      }
      err := OnClientRst(rapid);
    }

    /** The request of an HTTP/1.1 upgrade, as stream 1. */
    method SeedUpgradedStream(fields: seq<Field>, admission: Admission)
      modifies this`streams, this`sent, this`maxClient
      ensures Model() == Seeded(cfg, old(Model()), fields, admission)
    {
      if 1 > maxClient {
        maxClient := 1;
      }
      if admission.AtLimit? {
        sent := sent + [Rst(1, RefusedStream)];
        streams := streams[1 := if 1 in streams then streams[1].(live := false) else FRESH.(reset := true, live := false)];
        return;
      }
      streams := streams[1 := FRESH];
      if admission.QueueFull? {
        WriteRst(1, RefusedStream);
        return;
      }
      streams := streams[1 := streams[1].(recvd := true)];
      PushEvent(1, Headers(fields, true));
      streams := streams[1 := streams[1].(ended := true)];
    }
  }
}
