/** Outbound flow control as a transition system.

    One action is one critical section of the source: what a goroutine does
    under fcOutMu, under one stream's mutex, or under the table lock. fcOutMu is
    held across several stream sections (takeSendCredits, the needConn sample and
    fcPark; the two halves of releaseSendCredits), so it is a field of the state
    and other actors move between those sections. Any number of writers run; one
    reader goroutine handles grants and SETTINGS; pushes, releases and Close come
    from anywhere. */
module Outbound {
  import opened Windows
  import Q = ParkQueue

  type Stream = nat
  type Writer = nat
  type Queue = seq<Q.Entry<Writer, Stream>>

  /** Where one writer is. The pcs for which HoldsLock is true own fcOutMu. */
  datatype Pc =
    | Idle
    | Trying(s: Stream, want: int, slow: bool) // past the closed check, before takeSendCredits
    | Failed(s: Stream, want: int)             // takeSendCredits refused, needConn not yet sampled
    | Sampled(s: Stream, want: int, needConn: bool)
    | Waiting(s: Stream, want: int)            // inside the select
    | Resuming(s: Stream, want: int)           // out of the select, fcOutMu not yet retaken
    | Holding(s: Stream, n: int)               // credit debited, DATA frame not yet written
    | Refused(s: Stream, n: int)               // authorizeSend said no, credit to be returned
    | RefundedConn(s: Stream, n: int)
    | RefundedBoth(s: Stream, n: int)          // both windows restored, both wakes still to come

  datatype Reader =
    | Ready
    | OwesStream(s: Stream)                // stream window grown, fcWakeStream still to come
    | Walking(was: int, todo: set<Stream>) // inside applyInitialWindow, table lock held
    | OwesAll                              // delta carried, fcWakeAll still to come

  datatype Closer = Open | OwesClosed | Closed

  /** Per-window history: increments accepted, octets put on the wire, credit
      abandoned with a dead write, and credit a saturating refund cut off. */
  datatype Ledger = Ledger(granted: int, written: int, abandoned: int, lost: int)

  const EMPTY_LEDGER := Ledger(0, 0, 0, 0)

  datatype State = State(
    writers: seq<Pc>,
    tokens: set<Writer>,       // writers with a value in their one-slot ready channel
    queue: Queue,
    lock: Option<Writer>,      // fcOutMu, when a writer holds it across actions
    reader: Reader,
    closer: Closer,
    conn: int,                 // peerConnSendWindow
    win: map<Stream, int>,     // sendWindow of every stream ever registered
    live: set<Stream>,
    initial: int,              // the peer's SETTINGS_INITIAL_WINDOW_SIZE
    failed: bool,              // a connection error was raised
    book: map<Stream, Ledger>,
    connBook: Ledger)

  datatype Action =
    | Enter(w: Writer, s: Stream, want: int)
    | Take(w: Writer)
    | Sample(w: Writer)
    | Park(w: Writer)
    | Receive(w: Writer)
    | Cancel(w: Writer)
    | Relock(w: Writer, quit: bool)
    | Write(w: Writer)
    | Refuse(w: Writer)
    | Abandon(w: Writer)
    | RefundConn(w: Writer)
    | RefundStream(w: Writer)
    | RefundWake(w: Writer)
    | GrantConn(inc: int)
    | GrantStream(s: Stream, inc: int)
    | WakeStream
    | Settings(value: int)
    | Adjust(s: Stream)
    | WalkDone
    | WakeAll
    | Admit(s: Stream)
    | Release(s: Stream)
    | Close
    | CloseWake

  function Init(n: nat): State {
    State(seq(n, i => Idle), {}, [], None, Ready, Open,
          INITIAL_WINDOW, map[], {}, INITIAL_WINDOW, false, map[], EMPTY_LEDGER)
  }

  function Win(st: State, s: Stream): int {
    if s in st.win then st.win[s] else 0
  }

  function Book(st: State, s: Stream): Ledger {
    if s in st.book then st.book[s] else EMPTY_LEDGER
  }

  function PcOf(st: State, w: Writer): Pc {
    if w < |st.writers| then st.writers[w] else Idle
  }

  function Goto(st: State, w: Writer, pc: Pc): State {
    if w < |st.writers| then st.(writers := st.writers[w := pc]) else st
  }

  predicate HoldsLock(pc: Pc) {
    pc.Trying? || pc.Failed? || pc.Sampled? || pc.RefundedConn? || pc.RefundedBoth?
  }

  predicate LockFree(st: State) { st.lock.None? }

  predicate IsClosed(st: State) { !st.closer.Open? }

  /** A notification: the hit waiters leave the queue and get a token. */
  function Notify(st: State, wake: Q.Wake<Stream>): State {
    st.(queue := Q.After(st.queue, wake), tokens := st.tokens + Q.Woken(st.queue, wake))
  }

  predicate Enabled(st: State, a: Action) {
    !st.failed &&
    match a
    case Enter(w, s, want) =>
      w < |st.writers| && st.writers[w].Idle? && LockFree(st) && !IsClosed(st) && s in st.win && want > 0
    case Take(w) => PcOf(st, w).Trying?
    case Sample(w) => PcOf(st, w).Failed?
    case Park(w) => PcOf(st, w).Sampled?
    case Receive(w) => PcOf(st, w).Waiting? && w in st.tokens
    case Cancel(w) => PcOf(st, w).Waiting?
    case Relock(w, _) => PcOf(st, w).Resuming? && LockFree(st)
    case Write(w) => PcOf(st, w).Holding?
    case Refuse(w) => PcOf(st, w).Holding?
    case Abandon(w) => PcOf(st, w).Holding?
    case RefundConn(w) => PcOf(st, w).Refused? && LockFree(st)
    case RefundStream(w) => PcOf(st, w).RefundedConn?
    case RefundWake(w) => PcOf(st, w).RefundedBoth?
    case GrantConn(inc) => st.reader.Ready? && LockFree(st) && 0 <= inc <= MAX_WINDOW
    case GrantStream(s, inc) => st.reader.Ready? && s in st.win && 0 <= inc <= MAX_WINDOW
    case WakeStream => st.reader.OwesStream? && LockFree(st)
    case Settings(v) => st.reader.Ready? && 0 <= v <= MAX_WINDOW
    case Adjust(s) => st.reader.Walking? && s in st.reader.todo
    case WalkDone => st.reader.Walking? && st.reader.todo == {}
    case WakeAll => st.reader.OwesAll? && LockFree(st)
    case Admit(s) => !st.reader.Walking? && s !in st.win
    case Release(s) => !st.reader.Walking? && s in st.live
    case Close => st.closer.Open?
    case CloseWake => st.closer.OwesClosed? && LockFree(st)
  }

  function Step(st: State, a: Action): State {
    if !Enabled(st, a) then st
    else match a
      case Enter(w, s, want) => Goto(st, w, Trying(s, want, false)).(lock := Some(w))
      case Take(w) => StepTake(st, w)
      case Sample(w) =>
        var pc := PcOf(st, w);
        Goto(st, w, Sampled(pc.s, pc.want, Win(st, pc.s) > 0))
      case Park(w) =>
        var pc := PcOf(st, w);
        Goto(st, w, Waiting(pc.s, pc.want))
          .(queue := Q.Park(st.queue, Q.Entry(w, pc.s, pc.needConn)), lock := None)
      case Receive(w) =>
        var pc := PcOf(st, w);
        Goto(st, w, Resuming(pc.s, pc.want)).(tokens := st.tokens - {w})
      case Cancel(w) =>
        var pc := PcOf(st, w);
        Goto(st, w, Resuming(pc.s, pc.want))
      case Relock(w, quit) =>
        var pc := PcOf(st, w);
        var out := st.(queue := Q.Drop(st.queue, {w}), tokens := st.tokens - {w});
        if quit || IsClosed(st) then Goto(out, w, Idle)
        else Goto(out, w, Trying(pc.s, pc.want, true)).(lock := Some(w))
      case Write(w) => StepSpend(st, w, true)
      case Abandon(w) => StepSpend(st, w, false)
      case Refuse(w) =>
        var pc := PcOf(st, w);
        Goto(st, w, Refused(pc.s, pc.n))
      case RefundConn(w) => StepRefundConn(st, w)
      case RefundStream(w) => StepRefundStream(st, w)
      case RefundWake(w) =>
        var pc := PcOf(st, w);
        Goto(Notify(Notify(st, Q.Stream(pc.s)), Q.Conn), w, Idle).(lock := None)
      case GrantConn(inc) => StepGrantConn(st, inc)
      case GrantStream(s, inc) => StepGrantStream(st, s, inc)
      case WakeStream => Notify(st, Q.Stream(st.reader.s)).(reader := Ready)
      case Settings(v) =>
        if v == st.initial then st
        else st.(initial := v, reader := Walking(st.initial, st.live))
      case Adjust(s) => StepAdjust(st, s)
      case WalkDone => st.(reader := OwesAll)
      case WakeAll => Notify(st, Q.All).(reader := Ready)
      case Admit(s) =>
        st.(win := st.win[s := ToInt32(st.initial)], live := st.live + {s}, book := st.book[s := EMPTY_LEDGER])
      case Release(s) => st.(live := st.live - {s})
      case Close => st.(closer := OwesClosed)
      case CloseWake => Notify(st, Q.All).(closer := Closed)
  }

  function StepTake(st: State, w: Writer): State {
    var pc := PcOf(st, w);
    if !pc.Trying? || pc.want <= 0 then st
    else match TakeAmount(Win(st, pc.s), st.conn, pc.want)
      case Some(n) =>
        Goto(st, w, Holding(pc.s, n))
          .(win := st.win[pc.s := Win(st, pc.s) - n], conn := st.conn - n, lock := None)
      case None =>
        if pc.slow then Goto(st, w, Failed(pc.s, pc.want))
        else Goto(st, w, Resuming(pc.s, pc.want)).(lock := None)
  }

  /** The frame goes out, or the write dies and its credit with it. */
  function StepSpend(st: State, w: Writer, sent: bool): State {
    var pc := PcOf(st, w);
    if !pc.Holding? then st
    else
      var b := Book(st, pc.s);
      var c := st.connBook;
      Goto(st, w, Idle).(
        book := st.book[pc.s := if sent then b.(written := b.written + pc.n) else b.(abandoned := b.abandoned + pc.n)],
        connBook := if sent then c.(written := c.written + pc.n) else c.(abandoned := c.abandoned + pc.n))
  }

  function StepRefundConn(st: State, w: Writer): State {
    var pc := PcOf(st, w);
    if !pc.Refused? then st
    else
      var v := AddWindowSaturating(st.conn, pc.n);
      Goto(st, w, RefundedConn(pc.s, pc.n)).(
        conn := v, lock := Some(w),
        connBook := st.connBook.(lost := st.connBook.lost + (st.conn + pc.n - v)))
  }

  function StepRefundStream(st: State, w: Writer): State {
    var pc := PcOf(st, w);
    if !pc.RefundedConn? then st
    else
      var before := Win(st, pc.s);
      var v := AddWindowSaturating(before, pc.n);
      var b := Book(st, pc.s);
      Goto(st, w, RefundedBoth(pc.s, pc.n)).(
        win := st.win[pc.s := v], book := st.book[pc.s := b.(lost := b.lost + (before + pc.n - v))])
  }

  function StepGrantConn(st: State, inc: int): State {
    if st.conn + inc > MAX_WINDOW then st.(failed := true)
    else
      Notify(st.(conn := ToInt32(st.conn + inc),
                 connBook := st.connBook.(granted := st.connBook.granted + inc)), Q.Conn)
  }

  /** An increment that overflows the stream window resets the stream instead and
      leaves the window alone. */
  function StepGrantStream(st: State, s: Stream, inc: int): State {
    var v := Win(st, s) + inc;
    if v > MAX_WINDOW then st
    else
      var b := Book(st, s);
      st.(win := st.win[s := ToInt32(v)], book := st.book[s := b.(granted := b.granted + inc)],
          reader := OwesStream(s))
  }

  /** One stream of the retroactive walk. Only the upper bound is tested before
      the narrowing to 32 bits. */
  function StepAdjust(st: State, s: Stream): State {
    if !st.reader.Walking? then st
    else
      var v := Win(st, s) + (st.initial - st.reader.was);
      if v > MAX_WINDOW then st.(failed := true)
      else st.(win := st.win[s := ToInt32(v)], reader := st.reader.(todo := st.reader.todo - {s}))
  }

  /** The state after any schedule: an action that is not enabled does nothing,
      so the schedules are exactly the interleavings of enabled actions. */
  function Exec(n: nat, acts: seq<Action>): State {
    if acts == [] then Init(n) else Step(Exec(n, acts[..|acts| - 1]), acts[|acts| - 1])
  }

  /** The states some schedule of some number of writers reaches. */
  ghost predicate Reachable(st: State) {
    exists n: nat, acts: seq<Action> :: st == Exec(n, acts)
  }

  // ---------------------------------------------------------------- what the heap holds

  /** The part of the state that the objects under fcOutMu keep. */
  datatype Side = Side(queue: Queue, tokens: set<Writer>, conn: int, win: map<Stream, int>)

  function SideOf(st: State): Side { Side(st.queue, st.tokens, st.conn, st.win) }

  function WinIn(v: Side, s: Stream): int {
    if s in v.win then v.win[s] else 0
  }

  /** One turn of the loop in parkForSendCredits, up to the select. */
  function TriedOrParked(v: Side, w: Writer, s: Stream, want: int): Side
    requires want > 0
  {
    match TakeAmount(WinIn(v, s), v.conn, want)
    case Some(n) => v.(conn := v.conn - n, win := v.win[s := WinIn(v, s) - n])
    case None => v.(queue := Q.Park(v.queue, Q.Entry(w, s, WinIn(v, s) > 0)))
  }

  lemma TryOrParkSteps(st: State, w: Writer)
    requires !st.failed && PcOf(st, w).Trying? && PcOf(st, w).slow && PcOf(st, w).want > 0
    ensures SideOf(Step(Step(Step(st, Take(w)), Sample(w)), Park(w)))
         == TriedOrParked(SideOf(st), w, PcOf(st, w).s, PcOf(st, w).want)
  {
  }

  /** What a writer does first when it leaves the select. */
  function Resumed(v: Side, w: Writer): Side { v.(queue := Q.Drop(v.queue, {w}), tokens := v.tokens - {w}) }

  lemma ResumeSteps(st: State, w: Writer, quit: bool)
    requires Enabled(st, Relock(w, quit))
    ensures SideOf(Step(st, Relock(w, quit))) == Resumed(SideOf(st), w)
  {
  }

  // ---------------------------------------------------------------- structure

  predicate ByWriter(a: Action) {
    || a.Enter? || a.Take? || a.Sample? || a.Park? || a.Receive? || a.Cancel? || a.Relock?
    || a.Write? || a.Refuse? || a.Abandon? || a.RefundConn? || a.RefundStream? || a.RefundWake?
  }

  lemma WriterMovesAlone(st: State, a: Action)
    requires ByWriter(a) && Enabled(st, a)
    ensures a.w < |st.writers| && Step(st, a).writers == st.writers[a.w := PcOf(Step(st, a), a.w)]
  {
  }

  lemma NoWriterMoves(st: State, a: Action)
    requires !ByWriter(a)
    ensures Step(st, a).writers == st.writers
  {
  }

  /** An action moves its own writer and nobody else. */
  lemma OthersStay(st: State, a: Action)
    ensures |Step(st, a).writers| == |st.writers|
    ensures forall v: Writer :: v < |st.writers| && !(ByWriter(a) && v == a.w) ==> Step(st, a).writers[v] == st.writers[v]
  {
    if !ByWriter(a) {
      NoWriterMoves(st, a);
    } else if Enabled(st, a) {
      WriterMovesAlone(st, a);
    }
  }

  /** fcOutMu has at most one owner, and the pcs agree with the field. */
  ghost predicate LockInv(st: State) {
    && (st.lock.Some? ==> st.lock.value < |st.writers|)
    && forall w: Writer :: w < |st.writers| ==> (HoldsLock(st.writers[w]) <==> st.lock == Some(w))
  }

  predicate PcKnown(st: State, pc: Pc) {
    match pc
    case Idle => true
    case Trying(s, want, _) => s in st.win && want > 0
    case Failed(s, want) => s in st.win && want > 0
    case Sampled(s, want, _) => s in st.win && want > 0
    case Waiting(s, want) => s in st.win && want > 0
    case Resuming(s, want) => s in st.win && want > 0
    case Holding(s, n) => s in st.win && n > 0
    case Refused(s, n) => s in st.win && n > 0
    case RefundedConn(s, n) => s in st.win && n > 0
    case RefundedBoth(s, n) => s in st.win && n > 0
  }

  /** Every stream a writer or the walk names has been registered, and amounts
      are positive. */
  ghost predicate KnownInv(st: State) {
    && DomainInv(st)
    && forall w: Writer :: w < |st.writers| ==> PcKnown(st, st.writers[w])
  }

  ghost predicate DomainInv(st: State) {
    && st.live <= st.win.Keys
    && st.book.Keys == st.win.Keys
    && (st.reader.Walking? ==> st.reader.todo <= st.live)
  }

  /** Only an admission opens a window or a book. */
  lemma KeysStay(st: State, a: Action)
    requires KnownInv(st) && Enabled(st, a) && !a.Admit?
    ensures Step(st, a).win.Keys == st.win.Keys && Step(st, a).book.Keys == st.book.Keys
  {
    if ByWriter(a) {
      WriterKeepsKeys(st, a);
    }
  }

  lemma WriterKeepsKeys(st: State, a: Action)
    requires KnownInv(st) && Enabled(st, a) && ByWriter(a)
    ensures Step(st, a).win.Keys == st.win.Keys && Step(st, a).book.Keys == st.book.Keys
  {
    assert a.Take? || a.Write? || a.Abandon? || a.RefundStream? ==> PcKnown(st, PcOf(st, a.w));
  }

  lemma DomainKept(st: State, a: Action)
    requires KnownInv(st)
    ensures DomainInv(Step(st, a))
    ensures st.win.Keys <= Step(st, a).win.Keys
  {
    if Enabled(st, a) && !a.Admit? {
      KeysStay(st, a);
    }
  }

  lemma MovedPcKnown(st: State, a: Action)
    requires KnownInv(st) && ByWriter(a) && a.w < |st.writers|
    requires |Step(st, a).writers| == |st.writers|
    ensures PcKnown(st, Step(st, a).writers[a.w])
  {
    assert PcKnown(st, st.writers[a.w]);
  }

  lemma KnownKept(st: State, a: Action)
    requires KnownInv(st)
    ensures KnownInv(Step(st, a))
  {
    DomainKept(st, a);
    OthersStay(st, a);
    forall w: Writer | w < |st.writers| ensures PcKnown(Step(st, a), Step(st, a).writers[w]) {
      if ByWriter(a) && w == a.w {
        MovedPcKnown(st, a);
      }
      assert PcKnown(st, st.writers[w]);
    }
  }

  predicate Parked(pc: Pc) { pc.Waiting? || pc.Resuming? }

  /** The queue holds parked writers once each; a parked writer has a queue entry
      or a token, never both. */
  ghost predicate QueueInv(st: State) {
    && Q.Distinct(st.queue)
    && (forall e :: e in st.queue ==>
          e.writer < |st.writers| && Parked(st.writers[e.writer]) &&
          st.writers[e.writer].s == e.stream && e.writer !in st.tokens)
    && (forall w :: w in st.tokens ==> w < |st.writers| && Parked(st.writers[w]))
    && (forall w: Writer :: w < |st.writers| && st.writers[w].Waiting? ==>
          Q.Queued(st.queue, w) || w in st.tokens)
  }

  lemma QueuedIsMember(q: Queue, w: Writer)
    ensures Q.Queued(q, w) <==> exists e :: e in q && e.writer == w
  {
    if Q.Queued(q, w) {
      var i :| 0 <= i < |q| && q[i].writer == w;
      assert q[i] in q;
    }
  }

  lemma MovedPcOwnsLock(st: State, a: Action)
    requires LockInv(st) && ByWriter(a) && a.w < |st.writers|
    requires |Step(st, a).writers| == |st.writers|
    ensures var st' := Step(st, a);
      && (HoldsLock(st'.writers[a.w]) <==> st'.lock == Some(a.w))
      && (st'.lock == st.lock || st'.lock == Some(a.w) || (st'.lock.None? && st.lock == Some(a.w)))
      && (st'.lock == Some(a.w) ==> st.lock == st'.lock || st.lock.None?)
  {
  }

  lemma LockKept(st: State, a: Action)
    requires LockInv(st)
    ensures LockInv(Step(st, a))
  {
    OthersStay(st, a);
    if !ByWriter(a) || a.w >= |st.writers| {
      assert Step(st, a).lock == st.lock;
    } else {
      MovedPcOwnsLock(st, a);
    }
  }

  lemma NotifyKeepsQueue(st: State, wake: Q.Wake<Stream>)
    requires QueueInv(st)
    ensures QueueInv(Notify(st, wake))
  {
    var st' := Notify(st, wake);
    forall w: Writer | w < |st.writers| && st.writers[w].Waiting?
      ensures Q.Queued(st'.queue, w) || w in st'.tokens
    {
      if w !in st'.tokens {
        QueuedIsMember(st.queue, w);
        var e :| e in st.queue && e.writer == w;
        assert e in st'.queue;
        QueuedIsMember(st'.queue, w);
      }
    }
    forall e | e in st'.queue ensures e.writer !in st'.tokens {
      Q.WokenIsHit(st.queue, wake);
    }
  }

  /** A step that touches neither queue nor tokens and moves one writer. */
  lemma MoveKeepsQueue(st: State, st': State, w: Writer)
    requires QueueInv(st)
    requires st'.queue == st.queue && st'.tokens == st.tokens
    requires w < |st.writers| && |st'.writers| == |st.writers|
    requires forall v: Writer :: v < |st.writers| && v != w ==> st'.writers[v] == st.writers[v]
    requires Parked(st.writers[w]) ==> Parked(st'.writers[w]) && st'.writers[w].s == st.writers[w].s
    requires st'.writers[w].Waiting? ==> st.writers[w].Waiting?
    ensures QueueInv(st')
  {
  }

  lemma QueueKeptByMove(st: State, a: Action)
    requires QueueInv(st) && Enabled(st, a)
    requires !a.Park? && !a.Receive? && !a.Relock? && !a.RefundWake? && !a.GrantConn?
    requires !a.WakeStream? && !a.WakeAll? && !a.CloseWake?
    ensures QueueInv(Step(st, a))
  {
    var st' := Step(st, a);
    assert st'.queue == st.queue && st'.tokens == st.tokens;
    if a.Enter? || a.Take? || a.Sample? || a.Cancel? || a.Write? || a.Abandon? || a.Refuse? || a.RefundConn? || a.RefundStream? {
      MoveKeepsQueue(st, st', a.w);
    } else {
      assert st'.writers == st.writers;
    }
  }

  lemma QueueKept(st: State, a: Action)
    requires LockInv(st) && QueueInv(st)
    ensures QueueInv(Step(st, a))
  {
    if Enabled(st, a) {
      match a {
        case Park(w) => ParkKeepsQueue(st, w);
        case Receive(w) => ReceiveKeepsQueue(st, w);
        case Relock(w, quit) => RelockKeepsQueue(st, w, quit);
        case RefundWake(w) => RefundWakeKeepsQueue(st, w);
        case GrantConn(inc) => if st.conn + inc <= MAX_WINDOW { NotifyKeepsQueue(st, Q.Conn); }
        case WakeStream => NotifyKeepsQueue(st, Q.Stream(st.reader.s));
        case WakeAll => NotifyKeepsQueue(st, Q.All);
        case CloseWake => NotifyKeepsQueue(st, Q.All);
        case _ => QueueKeptByMove(st, a);
      }
    }
  }

  lemma ReceiveKeepsQueue(st: State, w: Writer)
    requires QueueInv(st) && Enabled(st, Receive(w))
    ensures QueueInv(Step(st, Receive(w)))
  {
  }

  lemma RefundWakeKeepsQueue(st: State, w: Writer)
    requires QueueInv(st) && Enabled(st, RefundWake(w))
    ensures QueueInv(Step(st, RefundWake(w)))
  {
    var s := PcOf(st, w).s;
    NotifyKeepsQueue(st, Q.Stream(s));
    NotifyKeepsQueue(Notify(st, Q.Stream(s)), Q.Conn);
    MoveKeepsQueue(Notify(Notify(st, Q.Stream(s)), Q.Conn), Step(st, RefundWake(w)), w);
  }

  lemma ParkKeepsQueue(st: State, w: Writer)
    requires LockInv(st) && QueueInv(st) && Enabled(st, Park(w))
    ensures QueueInv(Step(st, Park(w)))
  {
    var st' := Step(st, Park(w));
    QueuedIsMember(st.queue, w);
    assert !Q.Queued(st.queue, w);
    forall v: Writer | v < |st'.writers| && st'.writers[v].Waiting?
      ensures Q.Queued(st'.queue, v) || v in st'.tokens
    {
      QueuedIsMember(st.queue, v);
      QueuedIsMember(st'.queue, v);
    }
  }

  lemma RelockMoves(st: State, w: Writer, quit: bool)
    requires Enabled(st, Relock(w, quit))
    ensures var r := Step(st, Relock(w, quit));
      && r.queue == Q.Drop(st.queue, {w}) && r.tokens == st.tokens - {w} && |r.writers| == |st.writers| && w < |r.writers|
      && !Parked(r.writers[w]) && forall v :: 0 <= v < |st.writers| && v != w ==> r.writers[v] == st.writers[v]
  {
  }

  /** A writer that has left the select is in neither queue nor tokens. */
  lemma LeaverKeepsQueue(st: State, r: State, w: Writer)
    requires QueueInv(st) && r.queue == Q.Drop(st.queue, {w}) && r.tokens == st.tokens - {w}
    requires |r.writers| == |st.writers| && w < |r.writers| && !Parked(r.writers[w])
    requires forall v :: 0 <= v < |st.writers| && v != w ==> r.writers[v] == st.writers[v]
    ensures QueueInv(r)
  {
    forall v: Writer | v < |r.writers| && r.writers[v].Waiting?
      ensures Q.Queued(r.queue, v) || v in r.tokens
    {
      QueuedIsMember(st.queue, v);
      QueuedIsMember(r.queue, v);
    }
  }

  lemma RelockKeepsQueue(st: State, w: Writer, quit: bool)
    requires LockInv(st) && QueueInv(st) && Enabled(st, Relock(w, quit))
    ensures QueueInv(Step(st, Relock(w, quit)))
  {
    RelockMoves(st, w, quit);
    LeaverKeepsQueue(st, Step(st, Relock(w, quit)), w);
  }

  // ---------------------------------------------------------------- wakeups

  /** A wake that will reach every waiter of stream s is still to be performed by
      a running notifier. */
  predicate OwedStream(st: State, s: Stream) {
    || st.reader == OwesStream(s)
    || st.reader.Walking?
    || st.reader.OwesAll?
    || st.closer.OwesClosed?
    || (st.lock.Some? && PcOf(st, st.lock.value).RefundedBoth? && PcOf(st, st.lock.value).s == s)
  }

  /** A wake of the connection-blocked waiters is still to be performed. */
  predicate OwedConn(st: State) {
    || st.closer.OwesClosed?
    || (st.lock.Some? && (PcOf(st, st.lock.value).RefundedConn? || PcOf(st, st.lock.value).RefundedBoth?))
  }

  predicate Covered(st: State, s: Stream, needConn: bool) {
    || OwedStream(st, s)
    || (if needConn then st.conn <= 0 || OwedConn(st) else Win(st, s) <= 0)
  }

  ghost predicate WakeInv(st: State) {
    && (forall e :: e in st.queue ==> Covered(st, e.stream, e.needConn))
    && (forall w: Writer :: w < |st.writers| ==>
          PcCovered(st, st.writers[w]))
  }

  predicate PcCovered(st: State, pc: Pc) {
    match pc
    case Failed(s, _) => st.conn <= 0 || Win(st, s) <= 0 || OwedStream(st, s)
    case Sampled(s, _, needConn) => Covered(st, s, needConn)
    case _ => true
  }

  /** Windows may shrink freely and grow only under an owed wake; owed wakes stay
      owed; new queue entries and newly failed writers are covered. */
  lemma WakeFrame(st: State, st': State)
    requires KnownInv(st) && QueueInv(st) && WakeInv(st)
    requires |st'.writers| == |st.writers|
    requires OwedConn(st) ==> OwedConn(st')
    requires forall s: Stream :: OwedStream(st, s) ==> OwedStream(st', s)
    requires st'.conn <= st.conn || OwedConn(st')
    requires forall s: Stream :: s in st.win ==> Win(st', s) <= Win(st, s) || OwedStream(st', s)
    requires forall e :: e in st'.queue ==> e in st.queue || Covered(st', e.stream, e.needConn)
    requires forall w: Writer :: w < |st.writers| ==>
      || PcCovered(st', st'.writers[w])
      || (st'.writers[w] == st.writers[w] && st'.conn <= st.conn)
    ensures WakeInv(st')
  {
  }

  /** With fcOutMu free nobody is between takeSendCredits and fcPark. */
  lemma LockFreeNoneParking(st: State, w: Writer)
    requires LockInv(st) && LockFree(st) && w < |st.writers|
    ensures PcCovered(st, st.writers[w])
  {
  }

  lemma WakeKeptByWriter(st: State, a: Action)
    requires KnownInv(st) && LockInv(st) && QueueInv(st) && WakeInv(st) && Enabled(st, a)
    requires a.Enter? || a.Take? || a.Sample? || a.Park? || a.Receive? || a.Cancel? || a.Relock?
    ensures WakeInv(Step(st, a))
  {
    var st' := Step(st, a);
    if a.Park? {
      ParkKeepsWake(st, a.w);
    } else if a.Relock? {
      RelockKeepsWake(st, a.w, a.quit);
    } else {
      WakeFrame(st, st');
    }
  }

  lemma ParkKeepsWake(st: State, w: Writer)
    requires KnownInv(st) && LockInv(st) && QueueInv(st) && WakeInv(st) && Enabled(st, Park(w))
    ensures WakeInv(Step(st, Park(w)))
  {
    var st' := Step(st, Park(w));
    var pc := PcOf(st, w);
    assert Covered(st', pc.s, pc.needConn);
    forall e | e in st'.queue ensures e in st.queue || Covered(st', e.stream, e.needConn) {
    }
    WakeFrame(st, st');
  }

  lemma RelockKeepsWake(st: State, w: Writer, quit: bool)
    requires KnownInv(st) && LockInv(st) && QueueInv(st) && WakeInv(st) && Enabled(st, Relock(w, quit))
    ensures WakeInv(Step(st, Relock(w, quit)))
  {
    WakeFrame(st, Step(st, Relock(w, quit)));
  }

  lemma WakeKeptByRefund(st: State, a: Action)
    requires KnownInv(st) && LockInv(st) && QueueInv(st) && WakeInv(st) && Enabled(st, a)
    requires a.Write? || a.Refuse? || a.Abandon? || a.RefundConn? || a.RefundStream?
    ensures WakeInv(Step(st, a))
  {
    var st' := Step(st, a);
    if a.RefundConn? {
      forall v: Writer | v < |st.writers| ensures PcCovered(st', st'.writers[v]) {
        LockFreeNoneParking(st, v);
      }
    }
    WakeFrame(st, st');
  }

  lemma WakeKeptByReader(st: State, a: Action)
    requires KnownInv(st) && LockInv(st) && QueueInv(st) && WakeInv(st) && Enabled(st, a)
    requires a.GrantStream? || a.Settings? || a.Adjust? || a.WalkDone? || a.Admit? || a.Release? || a.Close?
    ensures WakeInv(Step(st, a))
  {
    var st' := Step(st, a);
    WakeFrame(st, st');
  }

  /** The notifications: what they take off the list of owed wakes, they take
      off the queue too. */
  lemma WakeKeptByNotify(st: State, a: Action)
    requires KnownInv(st) && LockInv(st) && QueueInv(st) && WakeInv(st) && Enabled(st, a)
    requires a.GrantConn? || a.WakeStream? || a.WakeAll? || a.CloseWake? || a.RefundWake?
    ensures WakeInv(Step(st, a))
  {
    match a {
      case GrantConn(inc) => GrantConnKeepsWake(st, inc);
      case WakeStream => WakeStreamKeepsWake(st);
      case WakeAll => EmptyQueueIsCovered(st, Step(st, a));
      case CloseWake => EmptyQueueIsCovered(st, Step(st, a));
      case RefundWake(w) => RefundWakeKeepsWake(st, w);
    }
  }

  lemma EmptyQueueIsCovered(st: State, st': State)
    requires LockInv(st) && LockFree(st) && st'.writers == st.writers
    requires forall e :: e !in st'.queue
    ensures WakeInv(st')
  {
  }

  lemma GrantConnKeepsWake(st: State, inc: int)
    requires LockInv(st) && WakeInv(st) && Enabled(st, GrantConn(inc))
    ensures WakeInv(Step(st, GrantConn(inc)))
  {
    var st' := Step(st, GrantConn(inc));
    forall e | e in st'.queue ensures Covered(st', e.stream, e.needConn) {
      assert e in st.queue;
    }
  }

  lemma WakeStreamKeepsWake(st: State)
    requires LockInv(st) && WakeInv(st) && Enabled(st, WakeStream)
    ensures WakeInv(Step(st, WakeStream))
  {
    var st' := Step(st, WakeStream);
    forall e | e in st'.queue ensures Covered(st', e.stream, e.needConn) {
      assert e in st.queue;
    }
  }

  lemma RefundWakeKeepsWake(st: State, w: Writer)
    requires LockInv(st) && WakeInv(st) && Enabled(st, RefundWake(w))
    ensures WakeInv(Step(st, RefundWake(w)))
  {
    var st' := Step(st, RefundWake(w));
    assert st.lock == Some(w);
    forall e | e in st'.queue ensures Covered(st', e.stream, e.needConn) {
      assert e in Notify(st, Q.Stream(PcOf(st, w).s)).queue;
      assert e in st.queue;
    }
    forall v: Writer | v < |st'.writers| ensures PcCovered(st', st'.writers[v]) {
      assert v == w || !HoldsLock(st.writers[v]);
    }
  }

  lemma WakeKept(st: State, a: Action)
    requires KnownInv(st) && LockInv(st) && QueueInv(st) && WakeInv(st)
    ensures WakeInv(Step(st, a))
  {
    if Enabled(st, a) {
      if a.GrantConn? || a.WakeStream? || a.WakeAll? || a.CloseWake? || a.RefundWake? {
        WakeKeptByNotify(st, a);
      } else if a.GrantStream? || a.Settings? || a.Adjust? || a.WalkDone? || a.Admit? || a.Release? || a.Close? {
        WakeKeptByReader(st, a);
      } else if a.Write? || a.Refuse? || a.Abandon? || a.RefundConn? || a.RefundStream? {
        WakeKeptByRefund(st, a);
      } else {
        WakeKeptByWriter(st, a);
      }
    }
  }

  /** After Close has run its wake nobody is queued and nobody is on the way to
      parking: a closed connection strands no writer. */
  ghost predicate CloseInv(st: State) {
    st.closer.Closed? ==>
      && st.queue == []
      && forall w: Writer :: w < |st.writers| ==> !OnTheWayToPark(st.writers[w])
  }

  lemma SomeMember(q: Queue)
    ensures q != [] ==> exists e :: e in q
  {
    if q != [] {
      assert q[0] in q;
    }
  }

  predicate OnTheWayToPark(pc: Pc) {
    pc.Trying? || pc.Failed? || pc.Sampled?
  }

  lemma CloseKept(st: State, a: Action)
    requires LockInv(st) && QueueInv(st) && CloseInv(st)
    ensures CloseInv(Step(st, a))
  {
    OthersStay(st, a);
    SomeMember(Step(st, a).queue);
    if st.closer.Closed? {
      ClosedStaysEmpty(st, a);
    } else if Enabled(st, a) && a.CloseWake? {
      assert forall w: Writer :: w < |st.writers| ==> !HoldsLock(st.writers[w]);
    }
  }

  lemma ClosedStaysEmpty(st: State, a: Action)
    requires CloseInv(st) && st.closer.Closed?
    ensures Step(st, a).queue == []
    ensures ByWriter(a) && a.w < |Step(st, a).writers| ==> !OnTheWayToPark(Step(st, a).writers[a.w])
  {
    SomeMember(Step(st, a).queue);
  }
}
