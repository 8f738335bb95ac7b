/** What each way into a stream does when nobody interferes: an idle actor runs to its end
    with the write lock free. Together with StreamLife, where everybody interferes, this
    fixes both what may go out and what must. */
module StreamPaths {
  import opened StreamLife
  import S = StreamState

  /** The actor may run alone. */
  predicate Alone(st: State, a: Actor) { a < |st.actors| && st.actors[a].Idle? && st.wmu.None? }

  /** The actor is done and nobody else has moved. */
  predicate Done(st: State, r: State, a: Actor) {
    a < |st.actors| && r.wmu.None? && r.actors == st.actors[a := Idle]
  }

  function Sent(st: State, a: Actor, f: Frame): State {
    Step(Step(Step(Step(st, StartSend(a, f)), LockSend(a)), Authorize(a)), WriteSend(a, true))
  }

  /** SendHeaders and SendData: the frame goes out if and only if the stream still takes
      frames. */
  lemma SendPath(st: State, a: Actor, f: Frame)
    requires Alone(st, a) && MaySend(f)
    ensures var r := Sent(st, a, f);
      && r.wmu.None? && r.word == st.word && r.registered == st.registered
      && r.wire == (if S.Writable(st.word) then st.wire + [f] else st.wire)
      && r.actors == st.actors[a := if S.Writable(st.word) then Pc.Sent(f, false) else Idle]
  {
  }

  /** The steps after the write. */
  function Recorded(st: State, a: Actor): State { Step(Step(Step(st, AfterSend(a)), LocalEnd(a)), MarkDone(a)) }

  /** After it is out, HEADERS is recorded and END_STREAM too, and the latter releases the
      stream if and only if the client has ended its half. */
  lemma SendRecords(st: State, a: Actor, f: Frame)
    requires a < |st.actors| && st.actors[a] == Pc.Sent(f, false) && st.wmu.None?
    ensures var r := Recorded(st, a);
      && Done(st, r, a) && r.wire == st.wire
      && (f.Headers? ==> r.word.sentFields) && (Ends(f) ==> r.word.localEnded)
      && r.registered == (st.registered && !(Ends(f) && st.word.remoteEnded))
  {
  }

  /** writePushPromise: exactly on a stream that is registered. */
  lemma PushPath(st: State, a: Actor)
    requires Alone(st, a)
    ensures var r := Step(Step(Step(Step(st, StartPush(a)), LockPush(a)), CheckPush(a)), WritePush(a, true));
      Done(st, r, a) && r.wire == (if st.registered then st.wire + [PushPromise] else st.wire)
      && r.word == st.word && r.registered == st.registered
  {
  }

  /** creditConsumed: exactly on a stream that was not reset. */
  lemma CreditPath(st: State, a: Actor)
    requires Alone(st, a)
    ensures var r := Step(Step(Step(st, CheckCredit(a)), LockCredit(a)), WriteCredit(a, true));
      Done(st, r, a) && r.wire == (if st.word.wasReset then st.wire else st.wire + [WindowUpdate])
      && r.word == st.word && r.registered == st.registered
  {
  }

  // ---------------------------------------------------------------- resets

  /** From the record of the reset to the release. */
  function Finished(st: State, a: Actor): State {
    Step(Step(Step(st, LockReset(a)), WriteReset(a, true)), ReleaseReset(a))
  }

  predicate IsReset(st: State, r: State, a: Actor) {
    Done(st, r, a) && r.wire == st.wire + [RstStream] && !r.registered
  }

  lemma ResetFinishes(st: State, a: Actor, release: bool)
    requires a < |st.actors| && st.actors[a] == Resetting(release) && st.wmu.None?
    ensures var r := Finished(st, a);
      && Done(st, r, a) && r.wire == st.wire + [RstStream] && r.word == st.word
      && r.registered == (st.registered && !release)
  {
  }

  /** From the first step of a reset path to its end. */
  function Carried(st: State, a: Actor): State { Finished(Step(st, Record(a)), a) }

  lemma RecordStep(st: State, a: Actor, owes: bool)
    requires a < |st.actors| && st.actors[a] == Recording(owes)
    ensures var r := Step(st, Record(a));
      r.actors == st.actors[a := Resetting(true)] && r.wire == st.wire && r.wmu == st.wmu && r.word.wasReset
  {
  }

  /** mid: the stream after the first step. */
  lemma ResetFrom(st: State, mid: State, a: Actor, owes: bool)
    requires a < |st.actors| && mid.actors == st.actors[a := Recording(owes)] && mid.wire == st.wire && mid.wmu.None?
    ensures IsReset(st, Carried(mid, a), a) && Carried(mid, a).word.wasReset
  {
    RecordStep(mid, a, owes);
    ResetFinishes(Step(mid, Record(a)), a, true);
  }

  lemma NothingToCarry(st: State, a: Actor)
    requires a < |st.actors| && st.actors[a].Idle?
    ensures Carried(st, a) == st
  {
  }

  /** What the first step of a reset path decides: whether there is a reset to write. */
  predicate Starts(st: State, r: State, a: Actor, writes: bool, owes: bool) {
    && a < |st.actors| && r.actors == st.actors[a := if writes then Recording(owes) else Idle]
    && r.wire == st.wire && r.wmu == st.wmu && r.registered == st.registered
  }

  lemma PathsStart(st: State, a: Actor)
    requires Alone(st, a)
    ensures Starts(st, Step(st, StartReset(a)), a, true, false)
    ensures Starts(st, Step(st, CloseStream(a)), a, !S.Terminal(st.word), true) && Step(st, CloseStream(a)).word.wasReset
    ensures Starts(st, Step(st, Overflow(a)), a, !st.word.wasReset, true) && Step(st, Overflow(a)).word.wasReset
    ensures Starts(st, Step(st, GrantOverflow(a)), a, true, true)
  {
  }

  lemma PathEnds(st: State, mid: State, a: Actor, writes: bool, owes: bool)
    requires Alone(st, a) && Starts(st, mid, a, writes, owes) && (!writes ==> mid.word.wasReset)
    ensures var r := Carried(mid, a);
      r.word.wasReset && if writes then IsReset(st, r, a) else Done(st, r, a) && r.wire == st.wire && r.registered == st.registered
  {
    if writes {
      ResetFrom(st, mid, a, owes);
    } else {
      NothingToCarry(mid, a);
    }
  }

  /** writeServerRSTStream, and a WINDOW_UPDATE past 2^31-1: recorded, written and
      released. */
  lemma ResetPath(st: State, a: Actor)
    requires Alone(st, a)
    ensures IsReset(st, Carried(Step(st, StartReset(a)), a), a) && Carried(Step(st, StartReset(a)), a).word.wasReset
    ensures IsReset(st, Carried(Step(st, GrantOverflow(a)), a), a) && Carried(Step(st, GrantOverflow(a)), a).word.wasReset
  {
    PathsStart(st, a);
    PathEnds(st, Step(st, StartReset(a)), a, true, false);
    PathEnds(st, Step(st, GrantOverflow(a)), a, true, true);
  }

  /** ServerStream.Close: the same if and only if the stream is not over already. */
  lemma ClosePath(st: State, a: Actor)
    requires Alone(st, a)
    ensures var r := Carried(Step(st, CloseStream(a)), a);
      && r.word.wasReset
      && if S.Terminal(st.word) then Done(st, r, a) && r.wire == st.wire && r.registered == st.registered else IsReset(st, r, a)
  {
    PathsStart(st, a);
    PathEnds(st, Step(st, CloseStream(a)), a, !S.Terminal(st.word), true);
  }

  /** An overflow of the event buffer: the first reset of the stream is written. */
  lemma OverflowPath(st: State, a: Actor)
    requires Alone(st, a)
    ensures var r := Carried(Step(st, Overflow(a)), a);
      && r.word.wasReset
      && if st.word.wasReset then Done(st, r, a) && r.wire == st.wire && r.registered == st.registered else IsReset(st, r, a)
  {
    PathsStart(st, a);
    PathEnds(st, Step(st, Overflow(a)), a, !st.word.wasReset, true);
  }

  lemma ByIdStarts(st: State, a: Actor)
    requires Alone(st, a)
    ensures var r := Step(Step(st, LookupById(a)), RecordById(a));
      && r.actors == st.actors[a := Resetting(st.registered)] && r.wire == st.wire && r.wmu.None? && r.registered == st.registered
      && (if st.registered then r.word.wasReset else r.word == st.word)
  {
  }

  /** writeRSTStreamID: written in any case; a stream that is registered is recorded as
      reset and released as well. */
  lemma ByIdPath(st: State, a: Actor)
    requires Alone(st, a)
    ensures var r := Finished(Step(Step(st, LookupById(a)), RecordById(a)), a);
      IsReset(st, r, a) && (if st.registered then r.word.wasReset else r.word == st.word)
  {
    ByIdStarts(st, a);
    ByIdEnds(st, Step(Step(st, LookupById(a)), RecordById(a)), a);
  }

  lemma ByIdEnds(st: State, mid: State, a: Actor)
    requires Alone(st, a) && mid.actors == st.actors[a := Resetting(st.registered)] && mid.wire == st.wire && mid.wmu.None?
    requires mid.registered == st.registered
    ensures IsReset(st, Finished(mid, a), a) && Finished(mid, a).word == mid.word
  {
    ResetFinishes(mid, a, st.registered);
  }

  // ---------------------------------------------------------------- from the client

  /** END_STREAM received: recorded, and the stream is released if and only if the server
      has ended too. */
  lemma RemoteEndPath(st: State, a: Actor)
    requires Alone(st, a)
    ensures var r := Step(Step(st, RemoteEnd(a)), MarkDone(a));
      && Done(st, r, a) && r.wire == st.wire && r.word == S.Advanced(st.word, S.RECV_ENDED)
      && r.registered == (st.registered && !st.word.localEnded)
  {
  }

  /** RST_STREAM received: recorded, released, and not answered. */
  lemma ClientResetPath(st: State, a: Actor)
    requires Alone(st, a)
    ensures var r := Step(Step(st, ClientReset(a)), MarkDone(a));
      Done(st, r, a) && r.wire == st.wire && r.word.remoteEnded && r.word.wasReset && !r.registered
  {
  }

  /** The 431 answer: HEADERS with END_STREAM if the stream takes frames, released either
      way. */
  lemma AnswerPath(st: State, a: Actor)
    requires Alone(st, a)
    ensures var cleared := Step(Step(Step(st, StartAnswer(a)), LockSend(a)), Authorize(a));
      var r := Recorded(Step(cleared, WriteSend(a, true)), a);
      && Done(st, r, a) && !r.registered
      && r.wire == (if S.Writable(st.word) then st.wire + [Headers(true)] else st.wire)
      && (S.Writable(st.word) ==> r.word.localEnded)
  {
    AnswerWrites(st, a);
    var sent := Step(Step(Step(Step(st, StartAnswer(a)), LockSend(a)), Authorize(a)), WriteSend(a, true));
    AnswerRecords(sent, a);
  }

  lemma AnswerWrites(st: State, a: Actor)
    requires Alone(st, a)
    ensures var r := Step(Step(Step(Step(st, StartAnswer(a)), LockSend(a)), Authorize(a)), WriteSend(a, true));
      && r.wmu.None? && r.word == st.word && r.registered == st.registered
      && r.wire == (if S.Writable(st.word) then st.wire + [Headers(true)] else st.wire)
      && r.actors == st.actors[a := if S.Writable(st.word) then Pc.Sent(Headers(true), true) else OwesDone]
  {
  }

  lemma AnswerRecords(st: State, a: Actor)
    requires a < |st.actors| && st.wmu.None? && (st.actors[a] == Pc.Sent(Headers(true), true) || st.actors[a].OwesDone?)
    ensures var r := Recorded(st, a);
      Done(st, r, a) && !r.registered && r.wire == st.wire && (st.actors[a].Sent? ==> r.word.localEnded)
  {
  }
}
