/** What a writer achieves by its own steps when nobody interferes, from every reachable
    state: it gets the credit there is, or into the queue. */
module OutboundPaths {
  import opened Windows
  import opened Outbound
  import opened OutboundLedger
  import opened OutboundProgress
  import Q = ParkQueue

  /** Neither failed nor closed, and fcOutMu is free. */
  predicate Ready(st: State) { !st.failed && !IsClosed(st) && LockFree(st) }

  /** The largest amount that the windows and the request allow. */
  function Share(st: State, s: Stream, want: int): int { Min(want, Min(Win(st, s), st.conn)) }

  predicate Credit(st: State, s: Stream) { Win(st, s) > 0 && st.conn > 0 }

  /** The writer holds n octets of stream s, taken from both windows and nothing else. */
  predicate Holds(st: State, r: State, w: Writer, s: Stream, n: int) {
    && PcOf(r, w).Holding? && StreamHeld(PcOf(r, w), s) == ConnHeld(PcOf(r, w)) == n
    && r.conn == st.conn - n && r.win == st.win[s := Win(st, s) - n] && LockFree(r) && !r.failed && r.closer == st.closer
    && r.book == st.book && r.connBook == st.connBook
  }

  /** Out of the select, with its token or because its context ended, and back to the loop. */
  function Left(st: State, w: Writer): State {
    Step(Step(st, if w in st.tokens then Receive(w) else Cancel(w)), Relock(w, false))
  }

  lemma LeaveStep(st: State, w: Writer)
    requires !st.failed && Parked(PcOf(st, w))
    ensures var r, pc := Step(st, if w in st.tokens then Receive(w) else Cancel(w)), PcOf(st, w);
      PcOf(r, w) == Resuming(pc.s, pc.want) && r == st.(writers := r.writers, tokens := r.tokens) && r.tokens - {w} == st.tokens - {w}
  {
  }

  lemma RelockStep(st: State, w: Writer, s: Stream, want: int)
    requires PcOf(st, w) == Resuming(s, want) && Ready(st)
    ensures var r := Step(st, Relock(w, false));
      && PcOf(r, w) == Trying(s, want, true) && r.lock == Some(w)
      && r == st.(writers := r.writers, tokens := st.tokens - {w}, queue := Q.Drop(st.queue, {w}), lock := Some(w))
  {
  }

  lemma LeaverTries(st: State, w: Writer)
    requires Ready(st) && Parked(PcOf(st, w))
    ensures var r, pc := Left(st, w), PcOf(st, w);
      && PcOf(r, w) == Trying(pc.s, pc.want, true) && r.lock == Some(w)
      && r.queue == Q.Drop(st.queue, {w}) && r.tokens == st.tokens - {w}
      && r.conn == st.conn && r.win == st.win && !r.failed && r.book == st.book && r.connBook == st.connBook && r.closer == st.closer
  {
    LeaveStep(st, w);
    RelockStep(Step(st, if w in st.tokens then Receive(w) else Cancel(w)), w, PcOf(st, w).s, PcOf(st, w).want);
  }

  lemma TrierTakes(st: State, w: Writer)
    requires PcOf(st, w).Trying? && PcOf(st, w).want > 0 && !st.failed && Credit(st, PcOf(st, w).s)
    ensures Holds(st, Step(st, Take(w)), w, PcOf(st, w).s, Share(st, PcOf(st, w).s, PcOf(st, w).want))
    ensures Step(st, Take(w)).queue == st.queue && Step(st, Take(w)).tokens == st.tokens
  {
  }

  /** Same windows and books, so the same credit and the same share. */
  predicate SameCredit(st: State, mid: State) {
    mid.conn == st.conn && mid.win == st.win && mid.book == st.book && mid.connBook == st.connBook && mid.closer == st.closer
  }

  lemma ServedAcross(st: State, mid: State, w: Writer, s: Stream, want: int)
    requires SameCredit(st, mid) && PcOf(mid, w).Trying? && PcOf(mid, w).s == s && PcOf(mid, w).want == want > 0
    requires !mid.failed && Credit(st, s)
    ensures var r := Step(mid, Take(w));
      0 < Share(st, s, want) && Holds(st, r, w, s, Share(st, s, want)) && r.queue == mid.queue && r.tokens == mid.tokens
  {
    TrierTakes(mid, w);
  }

  /** A writer that has left its select, or is in it, and finds credit in both windows gets
      the smallest of its request and the two windows. */
  lemma WokenIsServed(st: State, w: Writer)
    requires Reachable(st) && Ready(st) && Parked(PcOf(st, w)) && Credit(st, PcOf(st, w).s)
    ensures var r, pc := Step(Left(st, w), Take(w)), PcOf(st, w);
      && 0 < Share(st, pc.s, pc.want) && Holds(st, r, w, pc.s, Share(st, pc.s, pc.want))
      && !Q.Queued(r.queue, w) && w !in r.tokens
  {
    ReachableInv(st);
    assert PcKnown(st, PcOf(st, w));
    LeaverTries(st, w);
    ServedAcross(st, Left(st, w), w, PcOf(st, w).s, PcOf(st, w).want);
  }

  /** The rest of the loop, up to the select. */
  function Parking(st: State, w: Writer): State { Step(Step(Step(st, Take(w)), Sample(w)), Outbound.Park(w)) }

  lemma TrierFails(st: State, w: Writer)
    requires PcOf(st, w).Trying? && PcOf(st, w).slow && PcOf(st, w).want > 0 && !st.failed && !Credit(st, PcOf(st, w).s)
    ensures Step(st, Take(w)) == Goto(st, w, Failed(PcOf(st, w).s, PcOf(st, w).want))
  {
  }

  lemma TrierParks(st: State, w: Writer)
    requires PcOf(st, w).Trying? && PcOf(st, w).slow && PcOf(st, w).want > 0 && !st.failed && !Credit(st, PcOf(st, w).s)
    ensures var r, s := Parking(st, w), PcOf(st, w).s;
      && r.queue == Q.Park(st.queue, Q.Entry(w, s, Win(st, s) > 0)) && r.tokens == st.tokens
      && r.conn == st.conn && r.win == st.win && LockFree(r) && !r.failed && Parked(PcOf(r, w)) && r.closer == st.closer
  {
    TrierFails(st, w);
    FailedParks(Step(st, Take(w)), w);
  }

  lemma FailedParks(st: State, w: Writer)
    requires PcOf(st, w).Failed? && !st.failed
    ensures var r, s := Step(Step(st, Sample(w)), Outbound.Park(w)), PcOf(st, w).s;
      && r.queue == Q.Park(st.queue, Q.Entry(w, s, Win(st, s) > 0)) && r.tokens == st.tokens
      && r.conn == st.conn && r.win == st.win && LockFree(r) && !r.failed && Parked(PcOf(r, w)) && r.closer == st.closer
  {
    FailedSamples(st, w);
    SampledParks(Step(st, Sample(w)), w, PcOf(st, w).s, PcOf(st, w).want, Win(st, PcOf(st, w).s) > 0);
  }

  lemma FailedSamples(st: State, w: Writer)
    requires PcOf(st, w).Failed? && !st.failed
    ensures Step(st, Sample(w)) == Goto(st, w, Sampled(PcOf(st, w).s, PcOf(st, w).want, Win(st, PcOf(st, w).s) > 0))
  {
  }

  lemma SampledParks(st: State, w: Writer, s: Stream, want: int, needConn: bool)
    requires PcOf(st, w) == Sampled(s, want, needConn) && !st.failed
    ensures var r := Step(st, Outbound.Park(w));
      && r.queue == Q.Park(st.queue, Q.Entry(w, s, needConn)) && r.tokens == st.tokens
      && r.conn == st.conn && r.win == st.win && LockFree(r) && !r.failed && PcOf(r, w) == Waiting(s, want) && r.closer == st.closer
  {
    assert Enabled(st, Outbound.Park(w)) && w < |st.writers|;
  }

  /** One that finds a window empty gets in front of the queue, with the reason it has
      at that moment, and takes nothing. */
  lemma WokenParksAgain(st: State, w: Writer)
    requires Reachable(st) && Ready(st) && Parked(PcOf(st, w)) && !Credit(st, PcOf(st, w).s)
    ensures var r, s := Parking(Left(st, w), w), PcOf(st, w).s;
      && r.queue == [Q.Entry(w, s, Win(st, s) > 0)] + Q.Drop(st.queue, {w}) && w !in r.tokens
      && r.conn == st.conn && r.win == st.win && Ready(r) && Parked(PcOf(r, w))
  {
    ReachableInv(st);
    assert PcKnown(st, PcOf(st, w));
    LeaverTries(st, w);
    TrierParks(Left(st, w), w);
    assert !Q.Queued(Q.Drop(st.queue, {w}), w);
  }

  /** The first try of a write. */
  function Entered(st: State, w: Writer, s: Stream, want: int): State { Step(Step(st, Enter(w, s, want)), Take(w)) }

  predicate MayWrite(st: State, w: Writer, s: Stream, want: int) {
    Ready(st) && w < |st.writers| && PcOf(st, w).Idle? && s in st.win && want > 0
  }

  /** A write of a stream with credit gets its share at once. */
  lemma WriteIsServed(st: State, w: Writer, s: Stream, want: int)
    requires Reachable(st) && MayWrite(st, w, s, want) && Credit(st, s)
    ensures 0 < Share(st, s, want) && Holds(st, Entered(st, w, s, want), w, s, Share(st, s, want))
    ensures Entered(st, w, s, want).queue == st.queue
  {
    ServedAcross(st, Step(st, Enter(w, s, want)), w, s, want);
  }

  lemma RefusedOnce(st: State, w: Writer, s: Stream, want: int)
    requires MayWrite(st, w, s, want) && !Credit(st, s)
    ensures var r := Entered(st, w, s, want);
      && Ready(r) && Parked(PcOf(r, w)) && PcOf(r, w).s == s && !Credit(r, s)
      && r.queue == st.queue && r.tokens == st.tokens && r.conn == st.conn && r.win == st.win
  {
  }

  /** A write of a stream without credit is queued. */
  lemma WriteParks(st: State, w: Writer, s: Stream, want: int)
    requires Reachable(st) && MayWrite(st, w, s, want) && !Credit(st, s)
    ensures var r := Parking(Left(Entered(st, w, s, want), w), w);
      && r.queue == [Q.Entry(w, s, Win(st, s) > 0)] + Q.Drop(st.queue, {w})
      && r.conn == st.conn && r.win == st.win && Ready(r) && Parked(PcOf(r, w))
  {
    var mid := Entered(st, w, s, want);
    RefusedOnce(st, w, s, want);
    ReachableNext(st, Enter(w, s, want));
    ReachableNext(Step(st, Enter(w, s, want)), Take(w));
    WokenParksAgain(mid, w);
  }

  /** Held credit goes out: what is written of the stream and of the connection grows by
      it. */
  lemma HeldIsWritten(st: State, w: Writer)
    requires PcOf(st, w).Holding? && !st.failed
    ensures var r, s, n := Step(st, Write(w)), PcOf(st, w).s, ConnHeld(PcOf(st, w));
      && Book(r, s) == Book(st, s).(written := Book(st, s).written + n)
      && r.connBook == st.connBook.(written := st.connBook.written + n)
      && r.conn == st.conn && r.win == st.win && r.queue == st.queue && w < |r.writers| && PcOf(r, w).Idle?
      && (Ready(st) ==> Ready(r))
  {
  }

  /** From the wake to the wire: at rest, a writer in its select whose stream has credit
      and whose connection has credit has its token, and by its own steps puts its share
      on the wire. */
  lemma SleeperSends(st: State, w: Writer)
    requires Reachable(st) && Ready(st) && AtRest(st) && PcOf(st, w).Waiting? && Credit(st, PcOf(st, w).s)
    ensures w in st.tokens
    ensures var r, s, n := Step(Step(Left(st, w), Take(w)), Write(w)), PcOf(st, w).s, Share(st, PcOf(st, w).s, PcOf(st, w).want);
      && 0 < n && r.conn == st.conn - n && r.win == st.win[s := Win(st, s) - n]
      && Book(r, s) == Book(st, s).(written := Book(st, s).written + n)
      && r.connBook == st.connBook.(written := st.connBook.written + n)
  {
    AwakeAtRest(st, w);
    WokenIsServed(st, w);
    HeldIsWritten(Step(Left(st, w), Take(w)), w);
  }

  lemma AwakeAtRest(st: State, w: Writer)
    requires Reachable(st) && AtRest(st) && PcOf(st, w).Waiting? && Credit(st, PcOf(st, w).s)
    ensures w in st.tokens
  {
    ReachableInv(st);
    NobodySleepsOnCredit(st);
    QueuedIsMember(st.queue, w);
    forall e | e in st.queue
      ensures e.writer != w
    {
      assert TakeAmount(Win(st, e.stream), st.conn, 1).None?;
    }
  }

  /** On a closed connection a writer that leaves its select gives up empty-handed. */
  lemma ClosedGivesUp(st: State, w: Writer)
    requires Reachable(st) && !st.failed && IsClosed(st) && LockFree(st) && Parked(PcOf(st, w))
    ensures var r := Left(st, w);
      && PcOf(r, w).Idle? && !Q.Queued(r.queue, w) && w !in r.tokens && r.conn == st.conn && r.win == st.win && LockFree(r)
  {
  }

  // ---------------------------------------------------------------- somebody does wait

  lemma StartIsReachable(n: nat)
    ensures Reachable(Init(n))
  {
    assert Exec(n, []) == Init(n);
  }

  /** One writer spends the whole connection window and is queued with its next octet. */
  lemma SomebodyWaits()
    ensures exists st :: Reachable(st) && Ready(st) && st.queue == [Q.Entry(0, 1, false)]
  {
    var st := Step(Init(1), Admit(1));
    StartIsReachable(1);
    ReachableNext(Init(1), Admit(1));
    assert st.win[1] == INITIAL_WINDOW && PcOf(st, 0).Idle?;
    WriteIsServed(st, 0, 1, INITIAL_WINDOW);
    var held := Entered(st, 0, 1, INITIAL_WINDOW);
    ReachableNext(st, Enter(0, 1, INITIAL_WINDOW));
    ReachableNext(Step(st, Enter(0, 1, INITIAL_WINDOW)), Take(0));
    HeldIsWritten(held, 0);
    ReachableNext(held, Write(0));
    QueuedNext(Step(held, Write(0)));
  }

  lemma QueuedNext(spent: State)
    requires Reachable(spent) && MayWrite(spent, 0, 1, 1) && !Credit(spent, 1) && Win(spent, 1) == 0 && spent.queue == []
    ensures exists st :: Reachable(st) && Ready(st) && st.queue == [Q.Entry(0, 1, false)]
  {
    WriteParks(spent, 0, 1, 1);
    ReachableNext(spent, Enter(0, 1, 1));
    ReachableNext(Step(spent, Enter(0, 1, 1)), Take(0));
    LoopIsReachable(Entered(spent, 0, 1, 1), 0);
  }

  lemma LoopIsReachable(st: State, w: Writer)
    requires Reachable(st)
    ensures Reachable(Parking(Left(st, w), w))
  {
    var leave := if w in st.tokens then Receive(w) else Cancel(w);
    ReachableNext(st, leave);
    ReachableNext(Step(st, leave), Relock(w, false));
    var left := Left(st, w);
    ReachableNext(left, Take(w));
    ReachableNext(Step(left, Take(w)), Sample(w));
    ReachableNext(Step(Step(left, Take(w)), Sample(w)), Outbound.Park(w));
  }
}
