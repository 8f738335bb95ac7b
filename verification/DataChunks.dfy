/** One SendData call as the frames it puts on the wire. What the flow-control
    windows grant and whether the stream may still be written are answers from
    outside, one per chunk. */
module DataChunks {
  import opened Windows

  datatype Frame = Frame(end: bool, data: seq<int>)

  const DEFAULT_FRAME := 16384

  /** credit(i, want): what the i-th acquireSendCredits returns, None for an error.
      writable(i): what the i-th authorizeSend says, a connection closed meanwhile and a
      failed write included. */
  datatype Answers = Answers(credit: (nat, nat) -> Option<nat>, writable: nat -> bool)

  /** takeSendCredits never hands out nothing, nor more than was asked. */
  ghost predicate Sane(a: Answers) {
    forall i: nat, want: nat :: want > 0 && a.credit(i, want).Some? ==> 0 < a.credit(i, want).value <= want
  }

  /** The smaller of what the peer accepts and what this endpoint emits. */
  function MaxFrame(peer: nat, ours: nat): (r: nat)
    ensures peer > 0 && ours > 0 ==> 0 < r <= peer && r <= ours && (r == peer || r == ours)
    ensures peer == 0 || ours == 0 ==> r == DEFAULT_FRAME
  {
    var m := if ours < peer then ours else peer;
    if m == 0 then DEFAULT_FRAME else m
  }

  function Payload(frames: seq<Frame>): seq<int> {
    if frames == [] then [] else Payload(frames[..|frames| - 1]) + frames[|frames| - 1].data
  }

  lemma PayloadSnoc(frames: seq<Frame>, f: Frame)
    ensures Payload(frames + [f]) == Payload(frames) + f.data
  {
    assert (frames + [f])[..|frames|] == frames;
  }

  /** END_STREAM is on no frame but the last, and there only if it was asked for and
      nothing is left to send. */
  predicate EndsLast(frames: seq<Frame>, p: seq<int>, endStream: bool) {
    forall i :: 0 <= i < |frames| && frames[i].end ==> i == |frames| - 1 && endStream && Payload(frames) == p
  }

  function Want(left: nat, maxFrame: nat): (r: nat)
    ensures r <= left && r <= maxFrame && (r == left || r == maxFrame)
  {
    if left > maxFrame then maxFrame else left
  }

  /** Each frame was authorised, carries all the credit granted for it, and ends the
      stream exactly if asked to and the body is complete with it. */
  predicate Granted(frames: seq<Frame>, p: seq<int>, maxFrame: nat, endStream: bool, a: Answers) {
    frames == [] ||
    var k := |frames| - 1;
    var before := |Payload(frames[..k])|;
    && Granted(frames[..k], p, maxFrame, endStream, a)
    && before < |p| && a.writable(k)
    && a.credit(k, Want(|p| - before, maxFrame)) == Some(|frames[k].data|)
    && (frames[k].end <==> endStream && before + |frames[k].data| == |p|)
  }

  /** The chunk after these frames is refused its credit or its authorisation. */
  predicate Refused(frames: seq<Frame>, p: seq<int>, maxFrame: nat, a: Answers) {
    && |Payload(frames)| < |p|
    && (a.credit(|frames|, Want(|p| - |Payload(frames)|, maxFrame)).None? || !a.writable(|frames|))
  }

  lemma GrantedSnoc(frames: seq<Frame>, f: Frame, p: seq<int>, maxFrame: nat, endStream: bool, a: Answers)
    requires Granted(frames, p, maxFrame, endStream, a)
    requires |Payload(frames)| < |p| && a.writable(|frames|)
    requires a.credit(|frames|, Want(|p| - |Payload(frames)|, maxFrame)) == Some(|f.data|)
    requires f.end <==> endStream && |Payload(frames)| + |f.data| == |p|
    ensures Granted(frames + [f], p, maxFrame, endStream, a)
  {
    assert (frames + [f])[..|frames|] == frames;
  }

  predicate Fits(frames: seq<Frame>, maxFrame: nat) {
    forall i :: 0 <= i < |frames| ==> 0 < |frames[i].data| <= maxFrame
  }

  lemma {:induction false} GrantedFits(frames: seq<Frame>, p: seq<int>, maxFrame: nat, endStream: bool, a: Answers)
    requires maxFrame > 0 && Sane(a) && Granted(frames, p, maxFrame, endStream, a)
    ensures Fits(frames, maxFrame)
    decreases |frames|
  {
    if frames != [] {
      var k := |frames| - 1;
      GrantedFits(frames[..k], p, maxFrame, endStream, a);
      assert a.credit(k, Want(|p| - |Payload(frames[..k])|, maxFrame)).Some?;
      assert forall i :: 0 <= i < k ==> frames[i] == frames[..k][i];
    }
  }

  /** No frame before the last completes the body, so none of them ends the stream. */
  lemma {:induction false} GrantedEnds(frames: seq<Frame>, p: seq<int>, maxFrame: nat, endStream: bool, a: Answers, i: nat)
    requires Granted(frames, p, maxFrame, endStream, a) && i < |frames|
    ensures frames[i].end <==> i == |frames| - 1 && endStream && |Payload(frames)| == |p|
    decreases |frames|
  {
    var k := |frames| - 1;
    if i < k {
      GrantedEnds(frames[..k], p, maxFrame, endStream, a, i);
    }
  }

  /** The chunks carry a prefix of the body in order, each with all its credit, and
      stop short of the whole exactly where credit or authorisation is refused. */
  method WriteServerDataChunks(p: seq<int>, maxFrame: nat, endStream: bool, answers: Answers)
    returns (frames: seq<Frame>, ok: bool)
    requires maxFrame > 0 && Sane(answers)
    ensures |Payload(frames)| <= |p| && Payload(frames) == p[..|Payload(frames)|]
    ensures ok <==> |Payload(frames)| == |p|
    ensures !ok <==> Refused(frames, p, maxFrame, answers)
    ensures Granted(frames, p, maxFrame, endStream, answers)
  {
    frames := [];
    var sent := 0;
    while sent < |p|
      invariant sent <= |p| && Payload(frames) == p[..sent]
      invariant Granted(frames, p, maxFrame, endStream, answers)
    {
      var n := answers.credit(|frames|, Want(|p| - sent, maxFrame));
      if n.None? || !answers.writable(|frames|) {
        return frames, false;
      }
      var last := endStream && n.value == |p| - sent;
      var f := Frame(last, p[sent..sent + n.value]);
      PayloadSnoc(frames, f);
      GrantedSnoc(frames, f, p, maxFrame, endStream, answers);
      assert p[..sent] + p[sent..sent + n.value] == p[..sent + n.value];
      frames := frames + [f];
      sent := sent + n.value;
    }
    return frames, true;
  }

  /** A closed connection writes nothing. An empty body is no frame, or a bare
      END_STREAM; any other is chunked. A call that succeeds has sent the whole body and,
      if it was asked to, ended the stream, on its last frame only. */
  method WriteServerData(p: seq<int>, maxFrame: nat, endStream: bool, closed: bool, answers: Answers)
    returns (frames: seq<Frame>, ok: bool)
    requires maxFrame > 0 && Sane(answers)
    ensures Payload(frames) <= p && (ok ==> Payload(frames) == p)
    ensures EndsLast(frames, p, endStream)
    ensures ok && endStream ==> frames != [] && frames[|frames| - 1].end
    ensures closed ==> frames == [] && !ok
    ensures !closed && p == [] ==> (ok <==> !endStream || answers.writable(0)) && |frames| == if ok && endStream then 1 else 0
    ensures !closed && p != [] ==>
      && Fits(frames, maxFrame) && Granted(frames, p, maxFrame, endStream, answers)
      && (ok <==> !Refused(frames, p, maxFrame, answers))
  {
    if closed {
      return [], false;
    }
    if p == [] {
      if !endStream {
        return [], true;
      }
      if !answers.writable(0) {
        return [], false;
      }
      PayloadSnoc([], Frame(true, []));
      assert [] + [Frame(true, [])] == [Frame(true, [])];
      return [Frame(true, [])], true;
    }
    frames, ok := WriteServerDataChunks(p, maxFrame, endStream, answers);
    assert p[..|p|] == p;
    GrantedFits(frames, p, maxFrame, endStream, answers);
    forall i | 0 <= i < |frames|
      ensures frames[i].end <==> i == |frames| - 1 && endStream && |Payload(frames)| == |p|
    {
      GrantedEnds(frames, p, maxFrame, endStream, answers, i);
    }
  }
}
