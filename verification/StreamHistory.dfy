/** What the state of a stream says about its past: which facts its word holds, what is on
    the wire, and whether it is registered, in terms of what happened to it. */
module StreamHistory {
  import opened StreamLife
  import S = StreamState

  /** An action of this kind took effect in the run. */
  predicate Ever(start: State, acts: seq<Action>, kind: Action -> bool) {
    acts != [] &&
    var n := |acts| - 1;
    Ever(start, acts[..n], kind) || (Enabled(Exec(start, acts[..n]), acts[n]) && kind(acts[n]))
  }

  // ---------------------------------------------------------------- the word

  /** END_STREAM or RST_STREAM received. */
  predicate ByClient(act: Action) { act.RemoteEnd? || act.ClientReset? }

  /** A reset was recorded, whoever asked for it. */
  predicate ResetBy(act: Action) {
    act.ClientReset? || act.CloseStream? || act.Overflow? || act.GrantOverflow? || act.Record? || act.RecordById?
  }

  predicate Ended(act: Action) { act.LocalEnd? }

  predicate WordMoves(w: S.Word, r: S.Word, took: bool, act: Action) {
    && (r.remoteEnded <==> w.remoteEnded || (took && ByClient(act)))
    && (r.wasReset <==> w.wasReset || (took && ResetBy(act)))
    && (r.localEnded <==> w.localEnded || (took && Ended(act)))
  }

  lemma SenderWord(st: State, act: Action)
    requires Sends(act)
    ensures WordMoves(st.word, Step(st, act).word, Enabled(st, act), act)
  {
  }

  lemma OtherWord(st: State, act: Action)
    requires !Sends(act)
    ensures WordMoves(st.word, Step(st, act).word, Enabled(st, act), act)
  {
    if Pushes(act) {
      PusherRecords(st, act);
    }
  }

  /** Over every run the word holds exactly what happened: the client has ended its half
      if the stream was pushed, or END_STREAM or RST_STREAM came in; the server its own
      if an END_STREAM it wrote was recorded; and a reset if one was. */
  lemma {:induction false} WordIsHistory(n: nat, pushed: bool, acts: seq<Action>)
    ensures var start, w := Init(n, pushed), Exec(Init(n, pushed), acts).word;
      && (w.remoteEnded <==> pushed || Ever(start, acts, ByClient))
      && (w.wasReset <==> Ever(start, acts, ResetBy))
      && (w.localEnded <==> Ever(start, acts, Ended))
  {
    if acts != [] {
      var m := |acts| - 1;
      WordIsHistory(n, pushed, acts[..m]);
      var st := Exec(Init(n, pushed), acts[..m]);
      if Sends(acts[m]) {
        SenderWord(st, acts[m]);
      } else {
        OtherWord(st, acts[m]);
      }
    }
  }

  // ---------------------------------------------------------------- the wire

  predicate EndOnWire(wire: seq<Frame>) { exists f :: f in wire && Ends(f) }

  /** END_STREAM is out and will be recorded. */
  predicate AboutToEnd(pc: Pc) { pc.Ending? || (pc.Sent? && Ends(pc.f)) }

  predicate SomeoneEnds(actors: seq<Pc>) { exists a :: 0 <= a < |actors| && AboutToEnd(actors[a]) }

  /** END_STREAM is on the wire exactly if it has been recorded, or whoever wrote it is
      about to. */
  predicate EndInv(st: State) { EndOnWire(st.wire) <==> st.word.localEnded || SomeoneEnds(st.actors) }

  lemma SenderEnds(st: State, act: Action)
    requires Sends(act) && Enabled(st, act) && EndInv(st)
    ensures EndInv(Step(st, act))
  {
    var r := Step(st, act);
    StepMoves(st, act);
    if act.WriteSend? && act.ok {
      assert st.actors[act.a].f in r.wire && r.actors[act.a] == Sent(st.actors[act.a].f, st.actors[act.a].release);
      EndsWithWritten(st.wire, st.actors[act.a].f);
    }
    SomeoneMoves(st.actors, r.actors, act.a);
  }

  lemma EndsWithWritten(wire: seq<Frame>, f: Frame)
    ensures EndOnWire(wire + [f]) <==> EndOnWire(wire) || Ends(f)
  {
    if EndOnWire(wire) {
      var g :| g in wire && Ends(g);
      assert g in wire + [f];
    }
    assert f in wire + [f];
  }

  lemma SomeoneMoves(before: seq<Pc>, after: seq<Pc>, a: nat)
    requires a < |before| == |after| && forall b :: 0 <= b < |before| && b != a ==> after[b] == before[b]
    ensures SomeoneEnds(after) <==> AboutToEnd(after[a]) || exists b :: 0 <= b < |before| && b != a && AboutToEnd(before[b])
    ensures SomeoneEnds(before) <==> AboutToEnd(before[a]) || exists b :: 0 <= b < |before| && b != a && AboutToEnd(before[b])
  {
    if SomeoneEnds(after) && !AboutToEnd(after[a]) {
      var b :| 0 <= b < |after| && AboutToEnd(after[b]);
      assert AboutToEnd(before[b]);
    }
    if exists b :: 0 <= b < |before| && b != a && AboutToEnd(before[b]) {
      var b :| 0 <= b < |before| && b != a && AboutToEnd(before[b]);
      assert AboutToEnd(after[b]);
    }
  }

  /** Other actions write no such frame and leave such actors alone. */
  lemma OthersDoNotEnd(st: State, act: Action)
    requires !Sends(act) && Enabled(st, act)
    ensures Step(st, act).word.localEnded == st.word.localEnded && act.a < |Step(st, act).actors|
    ensures !AboutToEnd(st.actors[act.a]) && !AboutToEnd(Step(st, act).actors[act.a])
    ensures Step(st, act).wire == st.wire || exists f :: !Ends(f) && Step(st, act).wire == st.wire + [f]
  {
    OtherWord(st, act);
    StepWrites(st, act);
    OtherPc(st, act);
  }

  lemma OtherPc(st: State, act: Action)
    requires !Sends(act) && Enabled(st, act)
    ensures act.a < |Step(st, act).actors| && !AboutToEnd(Step(st, act).actors[act.a])
  {
  }

  lemma EndKept(st: State, act: Action)
    requires EndInv(st)
    ensures EndInv(Step(st, act))
  {
    if Enabled(st, act) {
      if Sends(act) {
        SenderEnds(st, act);
      } else {
        var r := Step(st, act);
        OthersDoNotEnd(st, act);
        StepMoves(st, act);
        SomeoneMoves(st.actors, r.actors, act.a);
        if r.wire != st.wire {
          var f :| !Ends(f) && r.wire == st.wire + [f];
          EndsWithWritten(st.wire, f);
        }
      }
    }
  }

  lemma {:induction false} RunKeepsEnd(n: nat, pushed: bool, acts: seq<Action>)
    ensures EndInv(Exec(Init(n, pushed), acts))
  {
    if acts != [] {
      RunKeepsEnd(n, pushed, acts[..|acts| - 1]);
      EndKept(Exec(Init(n, pushed), acts[..|acts| - 1]), acts[|acts| - 1]);
    }
  }

  // ---------------------------------------------------------------- the registry

  /** The 431 answer, which releases the stream whatever the client still sends. */
  predicate Answered(act: Action) { act.StartAnswer? }

  /** On the way to the release that follows a 431 answer. */
  predicate Answering(pc: Pc) {
    (pc.Sending? || pc.SendLocked? || pc.SendCleared? || pc.Sent? || pc.Ending?) && pc.release
  }

  predicate Due(pc: Pc) { Owes(pc) || Answering(pc) }

  predicate SomeoneDue(actors: seq<Pc>) { exists a :: 0 <= a < |actors| && Due(actors[a]) }

  /** done: the stream is over, or has been answered with 431. */
  predicate DueInv(st: State, done: bool) { st.registered && done ==> SomeoneDue(st.actors) }

  predicate Earned(pc: Pc, done: bool, answered: bool) { (Answering(pc) ==> answered) && (pc.OwesDone? ==> done) }

  predicate EarnedInv(st: State, done: bool, answered: bool) {
    (!st.registered ==> done) && forall a :: 0 <= a < |st.actors| ==> Earned(st.actors[a], done, answered)
  }

  predicate Over(st: State, answered: bool) { S.Terminal(st.word) || answered }

  lemma SenderStaysDue(st: State, act: Action)
    requires Sends(act) && Enabled(st, act) && PcInv(st)
    ensures act.a < |Step(st, act).actors|
    ensures Due(st.actors[act.a]) || Answered(act) ==> Due(Step(st, act).actors[act.a])
    ensures S.Terminal(Step(st, act).word) && !S.Terminal(st.word) ==> Due(Step(st, act).actors[act.a])
  {
    assert Sound(st, st.actors[act.a]);
  }

  lemma PusherNotDue(st: State, act: Action)
    requires Pushes(act) && Enabled(st, act)
    ensures !Due(st.actors[act.a]) && Step(st, act).word == st.word && Step(st, act).registered == st.registered
    ensures act.a < |Step(st, act).actors| && !Due(Step(st, act).actors[act.a]) && !Step(st, act).actors[act.a].OwesDone?
  {
  }

  lemma OtherStaysDue(st: State, act: Action)
    requires !Sends(act) && Enabled(st, act)
    ensures act.a < |Step(st, act).actors|
    ensures Due(st.actors[act.a]) ==> Due(Step(st, act).actors[act.a]) || !Step(st, act).registered
    ensures S.Terminal(Step(st, act).word) && !S.Terminal(st.word) ==> Due(Step(st, act).actors[act.a])
  {
    if Pushes(act) {
      PusherNotDue(st, act);
    } else {
      ResetterStaysDue(st, act);
    }
  }

  lemma ResetterStaysDue(st: State, act: Action)
    requires !Sends(act) && !Pushes(act) && Enabled(st, act)
    ensures act.a < |Step(st, act).actors|
    ensures Due(st.actors[act.a]) ==> Due(Step(st, act).actors[act.a]) || !Step(st, act).registered
    ensures S.Terminal(Step(st, act).word) && !S.Terminal(st.word) ==> Due(Step(st, act).actors[act.a])
  {
  }

  lemma DueKept(st: State, act: Action, answered: bool)
    requires PcInv(st) && DueInv(st, Over(st, answered))
    ensures DueInv(Step(st, act), Over(Step(st, act), answered || (Enabled(st, act) && Answered(act))))
  {
    if Enabled(st, act) {
      var r := Step(st, act);
      StepMoves(st, act);
      if Sends(act) {
        SenderStaysDue(st, act);
      } else {
        OtherStaysDue(st, act);
      }
      if st.registered && Over(st, answered) {
        var w :| 0 <= w < |st.actors| && Due(st.actors[w]);
        assert !r.registered || Due(r.actors[w]);
      } else if r.registered && Over(r, answered || Answered(act)) {
        StepGrows(st, act);
        assert Due(r.actors[act.a]);
      }
    }
  }

  lemma SenderEarns(st: State, act: Action, answered: bool)
    requires Sends(act) && Enabled(st, act) && Earned(st.actors[act.a], Over(st, answered), answered)
    ensures var r, now := Step(st, act), answered || Answered(act);
      act.a < |r.actors| && Earned(r.actors[act.a], Over(r, now), now) && r.registered == st.registered
  {
  }

  lemma OtherEarns(st: State, act: Action, answered: bool)
    requires !Sends(act) && Enabled(st, act) && Earned(st.actors[act.a], Over(st, answered), answered) && Sound(st, st.actors[act.a])
    ensures var r := Step(st, act);
      act.a < |r.actors| && Earned(r.actors[act.a], Over(r, answered), answered) && (!r.registered ==> !st.registered || Over(r, answered))
  {
    if Pushes(act) {
      PusherNotDue(st, act);
    } else {
      ResetterEarns(st, act);
      OtherWord(st, act);
    }
  }

  /** The release and the reset paths answer nothing, and release only what is over. */
  lemma ResetterEarns(st: State, act: Action)
    requires !Sends(act) && !Pushes(act) && Enabled(st, act) && Sound(st, st.actors[act.a])
    ensures var r := Step(st, act);
      && act.a < |r.actors| && !Answering(r.actors[act.a])
      && (r.actors[act.a].OwesDone? ==> S.Terminal(r.word))
      && (!r.registered ==> !st.registered || st.actors[act.a].OwesDone? || S.Terminal(st.word))
  {
  }

  lemma EarnedKept(st: State, act: Action, answered: bool)
    requires PcInv(st) && EarnedInv(st, Over(st, answered), answered)
    ensures var r, now := Step(st, act), answered || (Enabled(st, act) && Answered(act)); EarnedInv(r, Over(r, now), now)
  {
    if Enabled(st, act) {
      StepMoves(st, act);
      StepGrows(st, act);
      assert Earned(st.actors[act.a], Over(st, answered), answered) && Sound(st, st.actors[act.a]);
      if Sends(act) {
        SenderEarns(st, act, answered);
      } else {
        OtherEarns(st, act, answered);
      }
    }
  }

  predicate RegistryInv(st: State, answered: bool) {
    DueInv(st, Over(st, answered)) && EarnedInv(st, Over(st, answered), answered)
  }

  lemma RegistryKept(st: State, act: Action, answered: bool)
    requires PcInv(st) && RegistryInv(st, answered)
    ensures RegistryInv(Step(st, act), answered || (Enabled(st, act) && Answered(act)))
  {
    DueKept(st, act, answered);
    EarnedKept(st, act, answered);
  }

  lemma RegistryOfIdle(st: State)
    requires st.registered && !S.Terminal(st.word) && forall a :: 0 <= a < |st.actors| ==> st.actors[a] == Idle
    ensures RegistryInv(st, false)
  {
    IdleIsEarned();
  }

  lemma IdleIsEarned()
    ensures Earned(Idle, false, false)
  {
  }

  lemma {:induction false} RunKeepsRegistry(n: nat, pushed: bool, acts: seq<Action>)
    ensures RegistryInv(Exec(Init(n, pushed), acts), Ever(Init(n, pushed), acts, Answered))
  {
    if acts == [] {
      RegistryOfIdle(Init(n, pushed));
    } else {
      var start, m := Init(n, pushed), |acts| - 1;
      RunKeepsRegistry(n, pushed, acts[..m]);
      RunKeepsInv(start, acts[..m]);
      RegistryKept(Exec(start, acts[..m]), acts[m], Ever(start, acts[..m], Answered));
    }
  }

  // ---------------------------------------------------------------- theorems

  /** A stream leaves the registry only when it is over: reset, ended by both sides, or
      answered with 431. */
  lemma ReleasedOnlyWhenOver(n: nat, pushed: bool, acts: seq<Action>)
    requires !Exec(Init(n, pushed), acts).registered
    ensures S.Terminal(Exec(Init(n, pushed), acts).word) || Ever(Init(n, pushed), acts, Answered)
  {
    RunKeepsRegistry(n, pushed, acts);
  }

  /** Once every actor is done a stream is registered if and only if no reset was recorded,
      no 431 was given, and not both halves have ended: the client's by its END_STREAM
      or because the stream was pushed, the server's by an END_STREAM on the wire. */
  lemma RegisteredIff(n: nat, pushed: bool, acts: seq<Action>)
    requires forall a :: 0 <= a < |Exec(Init(n, pushed), acts).actors| ==> Exec(Init(n, pushed), acts).actors[a].Idle?
    ensures var start, st := Init(n, pushed), Exec(Init(n, pushed), acts);
      st.registered <==> !Ever(start, acts, ResetBy) && !Ever(start, acts, Answered)
                         && !((pushed || Ever(start, acts, ByClient)) && EndOnWire(st.wire))
  {
    WordIsHistory(n, pushed, acts);
    RunKeepsEnd(n, pushed, acts);
    RunKeepsRegistry(n, pushed, acts);
  }
}
