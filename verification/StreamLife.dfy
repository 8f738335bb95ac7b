/** One registered stream, every goroutine that touches it, and the wire.

    One action is one atomic step of the source: a state-word advance (atomic by
    StreamState.AdvanceIsAtomic), a registry lookup or release under the table
    lock, taking wmu, or a frame write under wmu. Writers, pushers, readers of the
    body and the reset paths are actors; there may be any number of each. The
    connection itself stays up. */
module StreamLife {
  import opened Windows
  import opened StreamState

  type Actor = nat

  datatype Frame = Headers(end: bool) | Data(end: bool) | PushPromise | RstStream | WindowUpdate

  /** Where one actor is. Pcs named ...Locked and after, up to the release of wmu,
      hold it. An actor with Owes(pc) has yet to call markStreamDone. */
  datatype Pc =
    | Idle
    // SendHeaders and SendData; release: the 431 answer, after which the stream
    // is released whatever became of the send
    | Sending(f: Frame, release: bool)      // past the early check, before wmu
    | SendLocked(f: Frame, release: bool)
    | SendCleared(f: Frame, release: bool)  // authorizeSend said yes
    | Sent(f: Frame, release: bool)         // frame out, wmu released, state not yet advanced
    | Ending(release: bool)                 // END_STREAM out, markLocalEnd still to come
    // writePushPromise
    | Pushing
    | PushLocked
    | PushCleared                    // found itself in the registry
    // writeServerRSTStream, writeRSTStreamID, Close, event overflow
    | ByIdLive                       // writeRSTStreamID found the stream
    | Recording(owes: bool)          // before writeServerRSTStream records the reset
    | Resetting(release: bool)       // reset recorded, before wmu
    | ResetLocked(release: bool)
    | ResetWritten(release: bool)
    // creditConsumed
    | Crediting                      // past the WasReset check, before wmu
    | CreditLocked
    | OwesDone                       // markStreamDone is the next step

  datatype State = State(word: Word, registered: bool, wmu: Option<Actor>, wire: seq<Frame>, actors: seq<Pc>)

  datatype Action =
    | StartSend(a: Actor, f: Frame)
    | StartAnswer(a: Actor)  // respondFieldsTooLarge
    | LockSend(a: Actor)
    | Authorize(a: Actor)
    | WriteSend(a: Actor, ok: bool)
    | AfterSend(a: Actor)
    | LocalEnd(a: Actor)
    | StartPush(a: Actor)
    | LockPush(a: Actor)
    | CheckPush(a: Actor)
    | WritePush(a: Actor, ok: bool)
    | LookupById(a: Actor)
    | RecordById(a: Actor)
    | StartReset(a: Actor)   // a handler-side reset path that holds the stream
    | CloseStream(a: Actor)
    | Overflow(a: Actor)     // push found the event buffer full
    | GrantOverflow(a: Actor)
    | Record(a: Actor)
    | LockReset(a: Actor)
    | WriteReset(a: Actor, ok: bool)
    | ReleaseReset(a: Actor)
    | RemoteEnd(a: Actor)    // END_STREAM received
    | ClientReset(a: Actor)  // RST_STREAM received
    | MarkDone(a: Actor)
    | CheckCredit(a: Actor)
    | LockCredit(a: Actor)
    | WriteCredit(a: Actor, ok: bool)

  /** A client stream starts open; a pushed one with its remote half ended. */
  function Init(n: nat, pushed: bool): State {
    State(if pushed then RECV_ENDED else OPEN, true, None, [], seq(n, i => Idle))
  }

  predicate HoldsWmu(pc: Pc) {
    pc.SendLocked? || pc.SendCleared? || pc.PushLocked? || pc.PushCleared? || pc.ResetLocked? || pc.ResetWritten? || pc.CreditLocked?
  }

  predicate Owes(pc: Pc) {
    pc.OwesDone? || pc == Recording(true) || pc == Resetting(true) || pc == ResetLocked(true) || pc == ResetWritten(true)
  }

  predicate MaySend(f: Frame) { f.Headers? || f.Data? }

  predicate Ends(f: Frame) { MaySend(f) && f.end }

  function Goto(st: State, a: Actor, pc: Pc): State
    requires a < |st.actors|
  {
    st.(actors := st.actors[a := pc])
  }

  function Write(st: State, f: Frame, ok: bool): State {
    if ok then st.(wire := st.wire + [f]) else st
  }

  function Advance(st: State, delta: Word): State {
    st.(word := Advanced(st.word, delta))
  }

  predicate Enabled(st: State, act: Action) {
    act.a < |st.actors| &&
    var pc := st.actors[act.a];
    match act
    case StartSend(_, f) => pc.Idle? && MaySend(f)
    case StartAnswer(_) => pc.Idle?
    case LockSend(_) => pc.Sending? && st.wmu.None?
    case Authorize(_) => pc.SendLocked?
    case WriteSend(_, ok) => pc.SendCleared? && (pc.release ==> ok)
    case AfterSend(_) => pc.Sent?
    case LocalEnd(_) => pc.Ending?
    case StartPush(_) => pc.Idle?
    case LockPush(_) => pc.Pushing? && st.wmu.None?
    case CheckPush(_) => pc.PushLocked?
    case WritePush(_, _) => pc.PushCleared?
    case LookupById(_) => pc.Idle?
    case RecordById(_) => pc.ByIdLive?
    case StartReset(_) => pc.Idle?
    case CloseStream(_) => pc.Idle?
    case Overflow(_) => pc.Idle?
    case GrantOverflow(_) => pc.Idle?
    case Record(_) => pc.Recording?
    case LockReset(_) => pc.Resetting? && st.wmu.None?
    case WriteReset(_, _) => pc.ResetLocked?
    case ReleaseReset(_) => pc.ResetWritten?
    case RemoteEnd(_) => pc.Idle?
    case ClientReset(_) => pc.Idle?
    case MarkDone(_) => pc.OwesDone?
    case CheckCredit(_) => pc.Idle?
    case LockCredit(_) => pc.Crediting? && st.wmu.None?
    case WriteCredit(_, _) => pc.CreditLocked?
  }

  function Step(st: State, act: Action): State {
    if !Enabled(st, act) then st
    else
      var a, pc := act.a, st.actors[act.a];
      match act
      case StartSend(_, f) => Goto(st, a, Sending(f, false))
      case StartAnswer(_) => Goto(st, a, if Writable(st.word) then Sending(Headers(true), true) else OwesDone)
      case LockSend(_) => Goto(st, a, SendLocked(pc.f, pc.release)).(wmu := Some(a))
      case Authorize(_) =>
        if Writable(st.word) then Goto(st, a, SendCleared(pc.f, pc.release))
        else Goto(st, a, if pc.release then OwesDone else Idle).(wmu := None)
      case WriteSend(_, ok) => Goto(Write(st, pc.f, ok), a, if ok then Sent(pc.f, pc.release) else Idle).(wmu := None)
      case AfterSend(_) =>
        Goto(if pc.f.Headers? then Advance(st, SENT_FIELDS) else st, a, if Ends(pc.f) then Ending(pc.release) else Idle)
      case LocalEnd(_) =>
        Goto(Advance(st, SENT_ENDED), a, if st.word.remoteEnded || pc.release then OwesDone else Idle)
      case StartPush(_) => Goto(st, a, Pushing)
      case LockPush(_) => Goto(st, a, PushLocked).(wmu := Some(a))
      case CheckPush(_) => if st.registered then Goto(st, a, PushCleared) else Goto(st, a, Idle).(wmu := None)
      case WritePush(_, ok) => Goto(Write(st, PushPromise, ok), a, Idle).(wmu := None)
      case LookupById(_) => Goto(st, a, if st.registered then ByIdLive else Resetting(false))
      case RecordById(_) => Goto(Advance(st, RESET), a, Resetting(true))
      case StartReset(_) => Goto(st, a, Recording(false))
      case CloseStream(_) => Goto(Advance(st, RESET), a, if Terminal(st.word) then Idle else Recording(true))
      case Overflow(_) => Goto(Advance(st, RESET), a, if st.word.wasReset then Idle else Recording(true))
      case GrantOverflow(_) => Goto(Advance(st, RESET), a, Recording(true))
      case Record(_) => Goto(Advance(st, RESET), a, Resetting(true))
      case LockReset(_) => Goto(st, a, ResetLocked(pc.release)).(wmu := Some(a))
      case WriteReset(_, ok) => Goto(Write(st, RstStream, ok), a, ResetWritten(pc.release))
      case ReleaseReset(_) =>
        Goto(if pc.release then st.(registered := false) else st, a, Idle).(wmu := None)
      case RemoteEnd(_) => Goto(Advance(st, RECV_ENDED), a, if st.word.localEnded then OwesDone else Idle)
      case ClientReset(_) => Goto(Advance(st, CLIENT_RESET), a, OwesDone)
      case MarkDone(_) => Goto(st.(registered := false), a, Idle)
      case CheckCredit(_) => Goto(st, a, if st.word.wasReset then Idle else Crediting)
      case LockCredit(_) => Goto(st, a, CreditLocked).(wmu := Some(a))
      case WriteCredit(_, ok) => Goto(Write(st, WindowUpdate, ok), a, Idle).(wmu := None)
  }

  function Exec(st: State, acts: seq<Action>): State {
    if acts == [] then st else Step(Exec(st, acts[..|acts| - 1]), acts[|acts| - 1])
  }

  /** Some schedule leads from one state to the other. */
  ghost predicate Leads(st: State, later: State) {
    exists acts :: later == Exec(st, acts)
  }

  /** The states some schedule of some number of actors reaches. */
  ghost predicate Reachable(st: State) {
    exists n: nat, pushed: bool :: Leads(Init(n, pushed), st)
  }

  lemma LeadsHere(st: State)
    ensures Leads(st, st)
  {
    assert Exec(st, []) == st;
  }

  lemma LeadsOn(st: State, mid: State, act: Action)
    requires Leads(st, mid)
    ensures Leads(st, Step(mid, act))
  {
    var acts :| mid == Exec(st, acts);
    assert (acts + [act])[..|acts|] == acts;
    assert Exec(st, acts + [act]) == Step(mid, act);
  }

  // ---------------------------------------------------------------- invariants

  /** wmu has one owner, the actor whose pc says so. */
  predicate LockInv(st: State) {
    && (st.wmu.Some? ==> st.wmu.value < |st.actors|)
    && (forall a :: 0 <= a < |st.actors| ==> (HoldsWmu(st.actors[a]) <==> st.wmu == Some(a)))
  }

  /** What an actor may rely on at its pc, whatever the others do. */
  predicate Sound(st: State, pc: Pc) {
    match pc
    case Sending(f, release) => MaySend(f) && (release ==> Ends(f))
    case SendLocked(f, release) => MaySend(f) && (release ==> Ends(f))
    case SendCleared(f, release) => MaySend(f) && (release ==> Ends(f)) && RstStream !in st.wire
    case Sent(f, release) => MaySend(f) && (release ==> Ends(f))
    case PushCleared => RstStream !in st.wire
    case Resetting(release) => if release then st.word.wasReset else !st.registered
    case ResetLocked(release) => if release then st.word.wasReset else !st.registered
    case ResetWritten(release) => if release then st.word.wasReset else !st.registered
    case OwesDone => !Writable(st.word)
    case _ => true
  }

  predicate PcInv(st: State) {
    forall a :: 0 <= a < |st.actors| ==> Sound(st, st.actors[a])
  }

  /** A released stream is closed for writing, and a stream whose reset is on the
      wire is released before wmu is. */
  predicate ReleaseInv(st: State) {
    && (!st.registered ==> !Writable(st.word))
    && (RstStream in st.wire ==> !Writable(st.word))
    && (st.registered && RstStream in st.wire ==>
          st.wmu.Some? && st.wmu.value < |st.actors| && st.actors[st.wmu.value] == ResetWritten(true))
  }

  predicate SomeoneOwes(actors: seq<Pc>) {
    exists a :: 0 <= a < |actors| && Owes(actors[a])
  }

  predicate OwedInv(st: State) {
    st.registered && Terminal(st.word) ==> SomeoneOwes(st.actors)
  }

  /** Nothing but WINDOW_UPDATE and RST_STREAM follows an RST_STREAM. */
  predicate QuietAfterReset(wire: seq<Frame>) {
    forall i, j :: 0 <= i < j < |wire| && wire[i].RstStream? ==> wire[j].RstStream? || wire[j].WindowUpdate?
  }

  predicate Inv(st: State) {
    LockInv(st) && PcInv(st) && ReleaseInv(st) && OwedInv(st) && QuietAfterReset(st.wire)
  }

  predicate Sends(act: Action) {
    act.StartSend? || act.StartAnswer? || act.LockSend? || act.Authorize? || act.WriteSend? || act.AfterSend? || act.LocalEnd?
  }

  predicate Pushes(act: Action) {
    act.StartPush? || act.LockPush? || act.CheckPush? || act.WritePush? || act.CheckCredit? || act.LockCredit? || act.WriteCredit?
  }

  /** One step moves one actor. */
  predicate MovesOne(st: State, act: Action) {
    var r := Step(st, act);
    |r.actors| == |st.actors| && forall b :: 0 <= b < |st.actors| && b != act.a ==> r.actors[b] == st.actors[b]
  }

  lemma SenderMoves(st: State, act: Action)
    requires Sends(act)
    ensures MovesOne(st, act)
  {
  }

  lemma OtherMoves(st: State, act: Action)
    requires !Sends(act)
    ensures MovesOne(st, act)
  {
  }

  lemma StepMoves(st: State, act: Action)
    ensures |Step(st, act).actors| == |st.actors|
    ensures forall b :: 0 <= b < |st.actors| && b != act.a ==> Step(st, act).actors[b] == st.actors[b]
  {
    if Sends(act) {
      SenderMoves(st, act);
    } else {
      OtherMoves(st, act);
    }
    assert MovesOne(st, act);
  }

  /** How one step changes the owner of wmu: the actor takes it, lets go of it, or
      leaves it alone, as its own pc says. */
  predicate OwnerMoves(st: State, r: State, a: Actor) {
    && a < |r.actors| && (HoldsWmu(r.actors[a]) <==> r.wmu == Some(a))
    && (r.wmu == st.wmu || ((st.wmu == None || st.wmu == Some(a)) && (r.wmu == None || r.wmu == Some(a))))
  }

  lemma SenderLock(st: State, act: Action)
    requires LockInv(st) && Enabled(st, act) && Sends(act)
    ensures OwnerMoves(st, Step(st, act), act.a)
  {
    assert HoldsWmu(st.actors[act.a]) <==> st.wmu == Some(act.a);
  }

  lemma PusherLock(st: State, act: Action)
    requires LockInv(st) && Enabled(st, act) && Pushes(act)
    ensures OwnerMoves(st, Step(st, act), act.a)
  {
    assert HoldsWmu(st.actors[act.a]) <==> st.wmu == Some(act.a);
  }

  lemma OtherLock(st: State, act: Action)
    requires LockInv(st) && Enabled(st, act) && !Sends(act) && !Pushes(act)
    ensures OwnerMoves(st, Step(st, act), act.a)
  {
    assert HoldsWmu(st.actors[act.a]) <==> st.wmu == Some(act.a);
  }

  lemma LockKept(st: State, act: Action)
    requires LockInv(st)
    ensures LockInv(Step(st, act))
  {
    if Enabled(st, act) {
      StepMoves(st, act);
      if Sends(act) {
        SenderLock(st, act);
      } else if Pushes(act) {
        PusherLock(st, act);
      } else {
        OtherLock(st, act);
      }
    }
  }

  /** The facts a step records in the word. */
  function Recorded(act: Action): Word {
    if act.LocalEnd? then SENT_ENDED
    else if act.RemoteEnd? then RECV_ENDED
    else if act.ClientReset? then CLIENT_RESET
    else if act.AfterSend? then SENT_FIELDS
    else RESET
  }

  predicate Records(st: State, act: Action) {
    Step(st, act).word == st.word || Step(st, act).word == Advanced(st.word, Recorded(act))
  }

  lemma SenderRecords(st: State, act: Action)
    requires Sends(act)
    ensures Records(st, act)
  {
  }

  lemma PusherRecords(st: State, act: Action)
    requires Pushes(act)
    ensures Step(st, act).word == st.word
  {
  }

  lemma OtherRecords(st: State, act: Action)
    requires !Sends(act) && !Pushes(act)
    ensures Records(st, act)
  {
  }

  lemma StepRecords(st: State, act: Action)
    ensures Records(st, act)
  {
    if Sends(act) {
      SenderRecords(st, act);
    } else if Pushes(act) {
      PusherRecords(st, act);
    } else {
      OtherRecords(st, act);
    }
  }

  /** A word only gains facts, and a released stream stays released. */
  lemma StepGrows(st: State, act: Action)
    ensures Has(Step(st, act).word, st.word)
    ensures Step(st, act).registered ==> st.registered
  {
    StepRecords(st, act);
  }

  /** One step writes at most one frame; only the owner of wmu writes. */
  lemma StepWrites(st: State, act: Action)
    ensures Step(st, act).wire == st.wire
            || (Enabled(st, act) && HoldsWmu(st.actors[act.a]) && Step(st, act).wire == st.wire + [Written(st, act)])
  {
  }

  /** The frame an enabled write puts out. */
  function Written(st: State, act: Action): Frame
    requires Enabled(st, act)
  {
    match act
    case WriteSend(_, _) => st.actors[act.a].f
    case WritePush(_, _) => PushPromise
    case WriteReset(_, _) => RstStream
    case _ => WindowUpdate
  }

  lemma OwnPcKept(st: State, act: Action)
    requires Enabled(st, act) && LockInv(st) && Sound(st, st.actors[act.a]) && ReleaseInv(st)
    ensures act.a < |Step(st, act).actors| && Sound(Step(st, act), Step(st, act).actors[act.a])
  {
    if Sends(act) {
      SenderPcKept(st, act);
    } else {
      OtherActionPcKept(st, act);
    }
  }

  lemma SenderPcKept(st: State, act: Action)
    requires Sends(act) && Enabled(st, act) && Sound(st, st.actors[act.a]) && ReleaseInv(st)
    ensures act.a < |Step(st, act).actors| && Sound(Step(st, act), Step(st, act).actors[act.a])
  {
  }

  lemma OtherActionPcKept(st: State, act: Action)
    requires !Sends(act) && Enabled(st, act) && LockInv(st) && Sound(st, st.actors[act.a]) && ReleaseInv(st)
    ensures act.a < |Step(st, act).actors| && Sound(Step(st, act), Step(st, act).actors[act.a])
  {
  }

  /** What one actor relies on survives the steps of the others. */
  lemma OtherPcKept(st: State, act: Action, b: Actor)
    requires LockInv(st) && b < |st.actors| && b != act.a && Sound(st, st.actors[b])
    ensures Sound(Step(st, act), st.actors[b])
  {
    StepGrows(st, act);
    StepWrites(st, act);
  }

  lemma PcKept(st: State, act: Action)
    requires LockInv(st) && PcInv(st) && ReleaseInv(st)
    ensures PcInv(Step(st, act))
  {
    var r := Step(st, act);
    if Enabled(st, act) {
      StepMoves(st, act);
      OwnPcKept(st, act);
      forall b | 0 <= b < |r.actors| && b != act.a
        ensures Sound(r, r.actors[b])
      {
        OtherPcKept(st, act, b);
      }
    }
  }

  /** Only an actor that may release the stream does, and only a reset writes one. */
  lemma ClosedBefore(st: State, act: Action)
    requires PcInv(st) && ReleaseInv(st)
    ensures !Step(st, act).registered ==> !Writable(st.word)
    ensures RstStream in Step(st, act).wire ==> !Writable(st.word)
  {
    StepWrites(st, act);
    if Enabled(st, act) {
      assert Sound(st, st.actors[act.a]);
    }
  }

  lemma ClosedKept(st: State, act: Action)
    requires PcInv(st) && ReleaseInv(st)
    ensures !Step(st, act).registered ==> !Writable(Step(st, act).word)
    ensures RstStream in Step(st, act).wire ==> !Writable(Step(st, act).word)
  {
    StepGrows(st, act);
    ClosedBefore(st, act);
  }

  /** Only the owner's release ends the section in which a reset was written. */
  lemma WrittenKept(st: State, act: Action)
    requires LockInv(st) && PcInv(st) && ReleaseInv(st) && Enabled(st, act)
    ensures var r := Step(st, act);
            r.registered && RstStream in r.wire ==>
              r.wmu.Some? && r.wmu.value < |r.actors| && r.actors[r.wmu.value] == ResetWritten(true)
  {
    StepWrites(st, act);
    StepMoves(st, act);
    assert Sound(st, st.actors[act.a]);
    assert HoldsWmu(st.actors[act.a]) <==> st.wmu == Some(act.a);
    if act.WriteReset? {
      assert st.registered ==> st.actors[act.a] == ResetLocked(true);
    }
  }

  lemma ReleaseKept(st: State, act: Action)
    requires LockInv(st) && PcInv(st) && ReleaseInv(st)
    ensures ReleaseInv(Step(st, act))
  {
    if Enabled(st, act) {
      ClosedKept(st, act);
      WrittenKept(st, act);
    }
  }

  lemma OwedKept(st: State, act: Action)
    requires OwedInv(st)
    ensures OwedInv(Step(st, act))
  {
    var r := Step(st, act);
    StepMoves(st, act);
    if st.registered && Terminal(st.word) {
      var w :| 0 <= w < |st.actors| && Owes(st.actors[w]);
      assert !r.registered || Owes(r.actors[w]);
    } else if r.registered && Terminal(r.word) {
      assert Owes(r.actors[act.a]);
    }
  }

  lemma OrderKept(st: State, act: Action)
    requires PcInv(st) && QuietAfterReset(st.wire)
    ensures QuietAfterReset(Step(st, act).wire)
  {
    StepWrites(st, act);
    if Step(st, act).wire != st.wire {
      assert Sound(st, st.actors[act.a]);
    }
  }

  lemma {:induction false} RunKeepsInv(st: State, acts: seq<Action>)
    requires Inv(st)
    ensures Inv(Exec(st, acts))
  {
    if acts != [] {
      var before, act := Exec(st, acts[..|acts| - 1]), acts[|acts| - 1];
      RunKeepsInv(st, acts[..|acts| - 1]);
      LockKept(before, act);
      PcKept(before, act);
      ReleaseKept(before, act);
      OwedKept(before, act);
      OrderKept(before, act);
    }
  }

  lemma ReachableInv(st: State)
    requires Reachable(st)
    ensures Inv(st)
  {
    var n: nat, pushed: bool :| Leads(Init(n, pushed), st);
    var acts :| st == Exec(Init(n, pushed), acts);
    RunKeepsInv(Init(n, pushed), acts);
  }

  // ---------------------------------------------------------------- theorems

  /** Sections 5.1 and 6.6 of RFC 9113: once a server RST_STREAM is on the wire, no
      HEADERS, DATA or PUSH_PROMISE of the stream follows it, in any interleaving. */
  lemma NothingFollowsReset(st: State, i: nat, j: nat)
    requires Reachable(st)
    requires i < j < |st.wire| && st.wire[i].RstStream?
    ensures !st.wire[j].Headers? && !st.wire[j].Data? && !st.wire[j].PushPromise?
  {
    ReachableInv(st);
    assert QuietAfterReset(st.wire);
  }

  /** A registered stream whose state is terminal has an actor that still owes its
      markStreamDone. */
  lemma NoStrandedStream(st: State)
    requires Reachable(st) && st.registered && Terminal(st.word)
    ensures exists a :: 0 <= a < |st.actors| && Owes(st.actors[a])
  {
    ReachableInv(st);
    assert SomeoneOwes(st.actors);
  }

  /** Once every actor is done, the registry and the state word agree: what is
      registered is still alive, what is not can no longer be written. */
  lemma RegistryAtRest(st: State)
    requires Reachable(st)
    requires forall a :: 0 <= a < |st.actors| ==> st.actors[a].Idle?
    ensures if st.registered then !Terminal(st.word) && RstStream !in st.wire else !Writable(st.word)
  {
    ReachableInv(st);
    if st.registered && Terminal(st.word) {
      NoStrandedStream(st);
      assert false;
    }
  }

  // ------------------------------------------------- WINDOW_UPDATE after a reset

  /** With wmu free, an idle actor can put a reset on the wire; nobody else moves. */
  lemma ResetRuns(start: State, st: State, a: Actor) returns (r: State)
    requires Leads(start, st) && a < |st.actors| && st.actors[a].Idle? && st.wmu.None?
    ensures Leads(start, r) && r.wire == st.wire + [RstStream] && r.wmu.None? && |r.actors| == |st.actors|
    ensures forall b :: 0 <= b < |st.actors| && b != a ==> r.actors[b] == st.actors[b]
  {
    var s1 := RecordRuns(start, st, a);
    var s2 := Step(s1, LockReset(a));
    LeadsOn(start, s1, LockReset(a));
    StepMoves(s1, LockReset(a));
    var s3 := Step(s2, WriteReset(a, true));
    LeadsOn(start, s2, WriteReset(a, true));
    StepMoves(s2, WriteReset(a, true));
    r := Step(s3, ReleaseReset(a));
    LeadsOn(start, s3, ReleaseReset(a));
    StepMoves(s3, ReleaseReset(a));
  }

  lemma RecordRuns(start: State, st: State, a: Actor) returns (r: State)
    requires Leads(start, st) && a < |st.actors| && st.actors[a].Idle?
    ensures Leads(start, r) && r.wire == st.wire && r.wmu == st.wmu && |r.actors| == |st.actors| && r.actors[a] == Resetting(true)
    ensures forall b :: 0 <= b < |st.actors| && b != a ==> r.actors[b] == st.actors[b]
  {
    var s1 := Step(st, StartReset(a));
    LeadsOn(start, st, StartReset(a));
    StepMoves(st, StartReset(a));
    r := Step(s1, Record(a));
    LeadsOn(start, s1, Record(a));
    StepMoves(s1, Record(a));
  }

  /** creditConsumed looks at the reset bit before it takes wmu, so its frame may
      come after the reset: the one exception to "nothing follows". */
  lemma UpdateMayFollowReset()
    ensures exists st :: Reachable(st) && st.wire == [RstStream, WindowUpdate]
  {
    var start := Init(2, false);
    LeadsHere(start);
    LeadsOn(start, start, CheckCredit(0));
    StepMoves(start, CheckCredit(0));
    var checked := Step(start, CheckCredit(0));
    assert checked.actors[0].Crediting? && checked.wmu.None? && checked.wire == [];
    var reset := ResetRuns(start, checked, 1);
    var last := CreditRuns(start, reset, 0);
    assert last.wire == [RstStream, WindowUpdate];
    assert Reachable(last);
  }

  lemma CreditRuns(start: State, st: State, a: Actor) returns (r: State)
    requires Leads(start, st) && a < |st.actors| && st.actors[a].Crediting? && st.wmu.None?
    ensures Leads(start, r) && r.wire == st.wire + [WindowUpdate]
  {
    LeadsOn(start, st, LockCredit(a));
    var locked := Step(st, LockCredit(a));
    LeadsOn(start, locked, WriteCredit(a, true));
    r := Step(locked, WriteCredit(a, true));
  }

  /** Some actor is past creditConsumed's check and has not written yet. */
  predicate CreditPending(st: State) {
    exists a :: 0 <= a < |st.actors| && (st.actors[a].Crediting? || st.actors[a].CreditLocked?)
  }

  predicate Extends(wire: seq<Frame>, later: seq<Frame>) {
    |wire| <= |later| && later[..|wire|] == wire
  }

  /** Some continuation writes another WINDOW_UPDATE. */
  ghost predicate MayStillCredit(st: State) {
    exists later :: Leads(st, later) && Extends(st.wire, later.wire) && WindowUpdate in later.wire[|st.wire|..]
  }

  lemma {:induction false} NoCreditAfter(st: State, acts: seq<Action>)
    requires Inv(st) && st.word.wasReset && !CreditPending(st)
    ensures Inv(Exec(st, acts)) && Exec(st, acts).word.wasReset && !CreditPending(Exec(st, acts))
    ensures Extends(st.wire, Exec(st, acts).wire) && WindowUpdate !in Exec(st, acts).wire[|st.wire|..]
  {
    RunKeepsInv(st, acts);
    if acts != [] {
      var before, act := Exec(st, acts[..|acts| - 1]), acts[|acts| - 1];
      NoCreditAfter(st, acts[..|acts| - 1]);
      NoCreditStep(before, act);
    }
  }

  lemma NoCreditStep(st: State, act: Action)
    requires PcInv(st) && st.word.wasReset && !CreditPending(st)
    ensures Step(st, act).word.wasReset && !CreditPending(Step(st, act))
    ensures Step(st, act).wire == st.wire
            || (exists f :: Step(st, act).wire == st.wire + [f] && f != WindowUpdate)
  {
    StepGrows(st, act);
    if Enabled(st, act) {
      NoCreditStarts(st, act);
      NoCreditWritten(st, act);
    }
  }

  lemma NoCreditStarts(st: State, act: Action)
    requires st.word.wasReset && !CreditPending(st) && Enabled(st, act)
    ensures !CreditPending(Step(st, act))
  {
    StepMoves(st, act);
    NoCheckPasses(st, act);
  }

  lemma NoCreditWritten(st: State, act: Action)
    requires PcInv(st) && !CreditPending(st) && Enabled(st, act)
    ensures Step(st, act).wire == st.wire
            || (exists f :: Step(st, act).wire == st.wire + [f] && f != WindowUpdate)
  {
    StepWrites(st, act);
    assert Sound(st, st.actors[act.a]);
    if Step(st, act).wire != st.wire {
      assert Written(st, act) != WindowUpdate;
    }
  }

  predicate NotCrediting(pc: Pc) { !pc.Crediting? && !pc.CreditLocked? }

  lemma NoCheckPasses(st: State, act: Action)
    requires st.word.wasReset && Enabled(st, act) && !st.actors[act.a].Crediting?
    ensures act.a < |Step(st, act).actors| && NotCrediting(Step(st, act).actors[act.a])
  {
    if Sends(act) {
      SenderNotCrediting(st, act);
    } else if Pushes(act) {
      PusherNotCrediting(st, act);
    } else {
      OtherNotCrediting(st, act);
    }
  }

  lemma SenderNotCrediting(st: State, act: Action)
    requires Sends(act) && Enabled(st, act)
    ensures act.a < |Step(st, act).actors| && NotCrediting(Step(st, act).actors[act.a])
  {
  }

  lemma PusherNotCrediting(st: State, act: Action)
    requires Pushes(act) && st.word.wasReset && Enabled(st, act) && !st.actors[act.a].Crediting?
    ensures act.a < |Step(st, act).actors| && NotCrediting(Step(st, act).actors[act.a])
  {
  }

  lemma OtherNotCrediting(st: State, act: Action)
    requires !Sends(act) && !Pushes(act) && Enabled(st, act)
    ensures act.a < |Step(st, act).actors| && NotCrediting(Step(st, act).actors[act.a])
  {
  }

  /** The step that takes the owner of wmu further. */
  function Further(pc: Pc, h: Actor): Action {
    match pc
    case SendLocked(_, _) => Authorize(h)
    case SendCleared(_, _) => WriteSend(h, true)
    case PushLocked => CheckPush(h)
    case PushCleared => WritePush(h, true)
    case ResetLocked(_) => WriteReset(h, true)
    case ResetWritten(_) => ReleaseReset(h)
    case _ => WriteCredit(h, true)
  }

  lemma OwnerMovesOn(st: State, h: Actor)
    requires LockInv(st) && st.wmu == Some(h)
    ensures var pc, r := st.actors[h], Step(st, Further(st.actors[h], h));
            r.wmu.None? || (r.wmu == Some(h) && h < |r.actors| && !pc.SendCleared? && !pc.PushCleared? && !pc.ResetWritten?
                            && (r.actors[h].SendCleared? || r.actors[h].PushCleared? || r.actors[h].ResetWritten?))
  {
    assert HoldsWmu(st.actors[h]);
  }

  /** The owner of wmu can always run until it lets go; nobody else need move. */
  lemma WmuComesFree(start: State, st: State, h: Actor, a: Actor) returns (r: State)
    requires Leads(start, st) && Extends(start.wire, st.wire)
    requires LockInv(st) && st.wmu == Some(h) && a < |st.actors| && a != h
    ensures Leads(start, r) && LockInv(r) && r.wmu.None? && Extends(start.wire, r.wire)
    ensures a < |r.actors| && r.actors[a] == st.actors[a]
    decreases !(st.actors[h].SendCleared? || st.actors[h].PushCleared? || st.actors[h].ResetWritten?)
  {
    var act := Further(st.actors[h], h);
    r := Step(st, act);
    LeadsOn(start, st, act);
    LockKept(st, act);
    StepMoves(st, act);
    StepWrites(st, act);
    OwnerMovesOn(st, h);
    if r.wmu.Some? {
      r := WmuComesFree(start, r, h, a);
    }
  }

  // ------------------------------------------------- what is owed can be done

  /** Nobody else is in the actor's way. */
  predicate Unhindered(st: State, a: Actor) {
    a < |st.actors| && st.wmu == if HoldsWmu(st.actors[a]) then Some(a) else None
  }

  /** The next step of an actor that owes a release. */
  function Release(pc: Pc, a: Actor): Action {
    match pc
    case Recording(_) => Record(a)
    case Resetting(_) => LockReset(a)
    case ResetLocked(_) => WriteReset(a, true)
    case ResetWritten(_) => ReleaseReset(a)
    case _ => MarkDone(a)
  }

  function OwedSteps(pc: Pc): nat {
    match pc
    case Recording(_) => 4
    case Resetting(_) => 3
    case ResetLocked(_) => 2
    case ResetWritten(_) => 1
    case _ => 1
  }

  lemma OwerMovesOn(st: State, a: Actor)
    requires Unhindered(st, a) && Owes(st.actors[a])
    ensures var r := Step(st, Release(st.actors[a], a));
            !r.registered || (Unhindered(r, a) && Owes(r.actors[a]) && OwedSteps(r.actors[a]) < OwedSteps(st.actors[a]))
  {
  }

  /** With wmu free or its own, an actor that owes the release can run to it. */
  lemma {:induction false} OwerReleases(start: State, st: State, a: Actor) returns (r: State)
    requires Leads(start, st) && Unhindered(st, a) && Owes(st.actors[a])
    ensures Leads(start, r) && !r.registered
    decreases OwedSteps(st.actors[a])
  {
    OwerMovesOn(st, a);
    LeadsOn(start, st, Release(st.actors[a], a));
    r := Step(st, Release(st.actors[a], a));
    if r.registered {
      r := OwerReleases(start, r, a);
    }
  }

  /** From every reachable state with a terminal stream still registered, the actor that
      owes its release gets there once the owner of wmu has let go. */
  lemma TerminalIsReleased(st: State)
    requires Reachable(st) && st.registered && Terminal(st.word)
    ensures exists later :: Leads(st, later) && !later.registered
  {
    ReachableInv(st);
    NoStrandedStream(st);
    var a :| 0 <= a < |st.actors| && Owes(st.actors[a]);
    var free := st;
    LeadsHere(st);
    if !Unhindered(st, a) {
      free := WmuComesFree(st, st, st.wmu.value, a);
    }
    var later := OwerReleases(st, free, a);
  }

  lemma PendingMayWrite(st: State, a: Actor)
    requires LockInv(st) && a < |st.actors| && (st.actors[a].Crediting? || st.actors[a].CreditLocked?)
    ensures MayStillCredit(st)
  {
    LeadsHere(st);
    var later;
    if st.actors[a].CreditLocked? {
      LeadsOn(st, st, WriteCredit(a, true));
      later := Step(st, WriteCredit(a, true));
      assert later.wire == st.wire + [WindowUpdate];
    } else {
      var free := st;
      if st.wmu.Some? {
        assert !HoldsWmu(st.actors[a]);
        free := WmuComesFree(st, st, st.wmu.value, a);
      }
      later := CreditRuns(st, free, a);
      assert later.wire[|st.wire|..] == free.wire[|st.wire|..] + [WindowUpdate];
    }
    assert WindowUpdate in later.wire[|st.wire|..];
  }

  /** The exact condition: after the reset is recorded a WINDOW_UPDATE can still go
      out if and only if some reader of the body is already past its check. */
  lemma LateUpdateIff(st: State)
    requires Reachable(st) && st.word.wasReset
    ensures MayStillCredit(st) <==> CreditPending(st)
  {
    ReachableInv(st);
    if CreditPending(st) {
      var a :| 0 <= a < |st.actors| && (st.actors[a].Crediting? || st.actors[a].CreditLocked?);
      PendingMayWrite(st, a);
    } else if MayStillCredit(st) {
      var later :| Leads(st, later) && Extends(st.wire, later.wire) && WindowUpdate in later.wire[|st.wire|..];
      var acts :| later == Exec(st, acts);
      NoCreditAfter(st, acts);
      assert false;
    }
  }
}
