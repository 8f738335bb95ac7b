/** What every schedule of Outbound keeps: window bounds, credit ledgers and the
    wakeup obligations. */
module OutboundLedger {
  import opened Windows
  import opened Outbound
  import Q = ParkQueue

  // ---------------------------------------------------------------- bounds

  /** The INITIAL_WINDOW_SIZE a live stream's window already accounts for: the
      old one while the walk has not reached the stream. */
  function Seen(st: State, s: Stream): int {
    if st.reader.Walking? && s in st.reader.todo then st.reader.was else st.initial
  }

  predicate InRange(v: int) { 0 <= v <= MAX_WINDOW }

  ghost predicate WindowInv(st: State) {
    && InRange(st.conn) && InRange(st.initial)
    && (st.reader.Walking? ==> InRange(st.reader.was))
    && (forall s :: s in st.win ==> -MAX_WINDOW <= st.win[s] <= MAX_WINDOW)
    && (forall s :: s in st.live ==> Seen(st, s) - MAX_WINDOW <= Win(st, s))
  }

  /** Actions that touch no window, no book and no held credit. */
  predicate Quiet(a: Action) {
    a.Enter? || a.Sample? || a.Park? || a.Receive? || a.Cancel? || a.Relock? || a.Refuse? || a.RefundWake?
    || a.WakeStream? || a.WakeAll? || a.Close? || a.CloseWake?
  }

  predicate SameMoney(st: State, st': State) {
    && st'.conn == st.conn && st'.win == st.win && st'.live == st.live && st'.initial == st.initial
    && st'.book == st.book && st'.connBook == st.connBook
    && (st'.reader == st.reader || (!st.reader.Walking? && !st'.reader.Walking?))
  }

  lemma QuietKeepsMoney(st: State, a: Action)
    requires Quiet(a)
    ensures SameMoney(st, Step(st, a))
  {
  }

  lemma WindowKept(st: State, a: Action)
    requires KnownInv(st) && WindowInv(st)
    ensures WindowInv(Step(st, a))
  {
    if Enabled(st, a) {
      if Quiet(a) {
        QuietKeepsMoney(st, a);
      } else if a.Take? || a.RefundConn? || a.RefundStream? || a.Write? || a.Abandon? {
        WindowKeptByWriter(st, a);
      } else {
        WindowKeptByReader(st, a);
      }
    }
  }

  lemma WindowKeptByWriter(st: State, a: Action)
    requires KnownInv(st) && WindowInv(st) && Enabled(st, a)
    requires a.Take? || a.RefundConn? || a.RefundStream? || a.Write? || a.Abandon?
    ensures WindowInv(Step(st, a))
  {
    assert PcKnown(st, PcOf(st, a.w));
  }

  lemma WindowKeptByReader(st: State, a: Action)
    requires KnownInv(st) && WindowInv(st) && Enabled(st, a)
    requires a.GrantConn? || a.GrantStream? || a.Settings? || a.Adjust? || a.WalkDone? || a.Admit? || a.Release?
    ensures WindowInv(Step(st, a))
  {
    if a.Adjust? {
      AdjustKeepsWindows(st, a.s);
    }
  }

  lemma AdjustKeepsWindows(st: State, s: Stream)
    requires KnownInv(st) && WindowInv(st) && Enabled(st, Adjust(s))
    ensures WindowInv(Step(st, Adjust(s)))
  {
    assert Seen(st, s) == st.reader.was;
  }

  // ---------------------------------------------------------------- ledgers

  /** Octets a writer has debited from the connection window and neither written
      nor returned. */
  function ConnHeld(pc: Pc): int {
    if pc.Holding? || pc.Refused? then pc.n else 0
  }

  /** The same for one stream's window, which is restored second. */
  function StreamHeld(pc: Pc, s: Stream): int {
    if (pc.Holding? || pc.Refused? || pc.RefundedConn?) && pc.s == s then pc.n else 0
  }

  function SumConn(ws: seq<Pc>): int {
    if ws == [] then 0 else ConnHeld(ws[0]) + SumConn(ws[1..])
  }

  function SumStream(ws: seq<Pc>, s: Stream): int {
    if ws == [] then 0 else StreamHeld(ws[0], s) + SumStream(ws[1..], s)
  }

  lemma {:induction false} SumConnUpdate(ws: seq<Pc>, w: nat, pc: Pc)
    requires w < |ws|
    ensures SumConn(ws[w := pc]) == SumConn(ws) - ConnHeld(ws[w]) + ConnHeld(pc)
  {
    if w == 0 {
      assert ws[w := pc][1..] == ws[1..];
    } else {
      assert ws[w := pc][1..] == ws[1..][w - 1 := pc];
      SumConnUpdate(ws[1..], w - 1, pc);
    }
  }

  lemma {:induction false} SumStreamUpdate(ws: seq<Pc>, w: nat, pc: Pc, s: Stream)
    requires w < |ws|
    ensures SumStream(ws[w := pc], s) == SumStream(ws, s) - StreamHeld(ws[w], s) + StreamHeld(pc, s)
  {
    if w == 0 {
      assert ws[w := pc][1..] == ws[1..];
    } else {
      assert ws[w := pc][1..] == ws[1..][w - 1 := pc];
      SumStreamUpdate(ws[1..], w - 1, pc, s);
    }
  }

  lemma {:induction false} HeldNonNegative(st: State, ws: seq<Pc>, s: Stream)
    requires forall i :: 0 <= i < |ws| ==> PcKnown(st, ws[i])
    ensures SumConn(ws) >= 0 && SumStream(ws, s) >= 0
    ensures s !in st.win ==> SumStream(ws, s) == 0
  {
    if ws != [] {
      HeldNonNegative(st, ws[1..], s);
    }
  }

  /** Window + written + abandoned + lost + held = starting credit + granted. */
  predicate ConnBalanced(st: State) {
    st.conn + st.connBook.written + st.connBook.abandoned + st.connBook.lost + SumConn(st.writers)
      == INITIAL_WINDOW + st.connBook.granted
  }

  predicate StreamBalanced(st: State, s: Stream) {
    var b := Book(st, s);
    Win(st, s) + b.written + b.abandoned + b.lost + SumStream(st.writers, s) == Seen(st, s) + b.granted
  }

  predicate NonNegative(b: Ledger) {
    b.granted >= 0 && b.written >= 0 && b.abandoned >= 0 && b.lost >= 0
  }

  predicate BooksKept(st: State, s: Stream) {
    && ConnBalanced(st) && NonNegative(st.connBook)
    && NonNegative(Book(st, s)) && (s in st.live ==> StreamBalanced(st, s))
  }

  ghost predicate LedgerInv(st: State) {
    forall s: Stream :: BooksKept(st, s)
  }

  /** A quiet action moves at most one writer, between pcs that hold the same. */
  lemma QuietKeepsHeld(st: State, a: Action, s: Stream)
    requires Quiet(a)
    ensures SumConn(Step(st, a).writers) == SumConn(st.writers)
    ensures SumStream(Step(st, a).writers, s) == SumStream(st.writers, s)
  {
    if Enabled(st, a) && (a.Enter? || a.Sample? || a.Park? || a.Receive? || a.Cancel? || a.Relock? || a.Refuse? || a.RefundWake?) {
      var pc := Step(st, a).writers[a.w];
      assert Step(st, a).writers == st.writers[a.w := pc];
      SumConnUpdate(st.writers, a.w, pc);
      SumStreamUpdate(st.writers, a.w, pc, s);
    }
  }

  lemma WriterHeld(st: State, a: Action, s: Stream)
    requires KnownInv(st) && Enabled(st, a)
    requires a.Take? || a.RefundConn? || a.RefundStream? || a.Write? || a.Abandon?
    ensures a.w < |st.writers| && PcKnown(st, st.writers[a.w])
    ensures |Step(st, a).writers| == |st.writers|
    ensures var pc := Step(st, a).writers[a.w];
      && SumConn(Step(st, a).writers) == SumConn(st.writers) - ConnHeld(st.writers[a.w]) + ConnHeld(pc)
      && SumStream(Step(st, a).writers, s) == SumStream(st.writers, s) - StreamHeld(st.writers[a.w], s) + StreamHeld(pc, s)
  {
    var pc := Step(st, a).writers[a.w];
    assert Step(st, a).writers == st.writers[a.w := pc];
    SumConnUpdate(st.writers, a.w, pc);
    SumStreamUpdate(st.writers, a.w, pc, s);
  }

  lemma LedgerKeptByTake(st: State, w: Writer, s: Stream)
    requires KnownInv(st) && WindowInv(st) && LedgerInv(st) && Enabled(st, Take(w))
    ensures BooksKept(Step(st, Take(w)), s)
  {
    assert BooksKept(st, s);
    WriterHeld(st, Take(w), s);
  }

  lemma LedgerKeptBySpend(st: State, a: Action, s: Stream)
    requires KnownInv(st) && WindowInv(st) && LedgerInv(st) && Enabled(st, a)
    requires a.Write? || a.Abandon?
    ensures BooksKept(Step(st, a), s)
  {
    assert BooksKept(st, s);
    WriterHeld(st, a, s);
  }

  lemma LedgerKeptByRefund(st: State, a: Action, s: Stream)
    requires KnownInv(st) && WindowInv(st) && LedgerInv(st) && Enabled(st, a)
    requires a.RefundConn? || a.RefundStream?
    ensures BooksKept(Step(st, a), s)
  {
    assert BooksKept(st, s);
    WriterHeld(st, a, s);
    assert IsInt32(Win(st, PcOf(st, a.w).s));
  }

  lemma LedgerKeptByReader(st: State, a: Action, s: Stream)
    requires KnownInv(st) && WindowInv(st) && LedgerInv(st) && Enabled(st, a)
    requires a.GrantConn? || a.GrantStream? || a.Settings? || a.Adjust? || a.WalkDone? || a.Admit? || a.Release?
    ensures BooksKept(Step(st, a), s)
  {
    var st' := Step(st, a);
    assert BooksKept(st, s);
    assert st'.writers == st.writers;
    if a == Admit(s) {
      HeldNonNegative(st, st.writers, s);
    }
  }

  lemma LedgerKept(st: State, a: Action)
    requires KnownInv(st) && WindowInv(st) && LedgerInv(st)
    ensures LedgerInv(Step(st, a))
  {
    forall s: Stream ensures BooksKept(Step(st, a), s) {
      assert BooksKept(st, s);
      if Enabled(st, a) {
        if Quiet(a) {
          QuietKeepsMoney(st, a);
          QuietKeepsHeld(st, a, s);
        } else if a.Take? {
          LedgerKeptByTake(st, a.w, s);
        } else if a.Write? || a.Abandon? {
          LedgerKeptBySpend(st, a, s);
        } else if a.RefundConn? || a.RefundStream? {
          LedgerKeptByRefund(st, a, s);
        } else {
          LedgerKeptByReader(st, a, s);
        }
      }
    }
  }

  // ---------------------------------------------------------------- all runs

  ghost predicate Inv(st: State) {
    && KnownInv(st) && LockInv(st) && QueueInv(st) && WakeInv(st) && CloseInv(st)
    && WindowInv(st) && LedgerInv(st)
  }

  lemma {:induction false} NothingHeld(n: nat)
    ensures SumConn(seq(n, i => Idle)) == 0
  {
    if n > 0 {
      assert seq(n, i => Idle)[1..] == seq(n - 1, i => Idle);
      NothingHeld(n - 1);
    }
  }

  lemma {:induction false} EveryRunKeepsInv(n: nat, acts: seq<Action>)
    ensures Inv(Exec(n, acts))
  {
    if acts == [] {
      NothingHeld(n);
    } else {
      var st := Exec(n, acts[..|acts| - 1]);
      var a := acts[|acts| - 1];
      EveryRunKeepsInv(n, acts[..|acts| - 1]);
      KnownKept(st, a);
      LockKept(st, a);
      QueueKept(st, a);
      WakeKept(st, a);
      CloseKept(st, a);
      WindowKept(st, a);
      LedgerKept(st, a);
    }
  }

  lemma ReachableInv(st: State)
    requires Reachable(st)
    ensures Inv(st)
  {
    var n: nat, acts: seq<Action> :| st == Exec(n, acts);
    EveryRunKeepsInv(n, acts);
  }

  /** No lost wakeup, in every interleaving: a queued writer with credit in both
      windows has a wake on its way; one that recorded "stream window empty" and
      has no wake on its way really has an empty stream window; and a writer in
      its select is queued or has its token already. */
  lemma NoLostWakeup(st: State)
    requires Reachable(st)
    ensures forall e :: e in st.queue ==>
      || Min(Win(st, e.stream), st.conn) <= 0
      || OwedStream(st, e.stream)
      || (e.needConn && OwedConn(st))
    ensures forall e :: e in st.queue && !e.needConn && !OwedStream(st, e.stream) ==> Win(st, e.stream) <= 0
    ensures forall w: Writer :: w < |st.writers| && st.writers[w].Waiting? ==> Q.Queued(st.queue, w) || w in st.tokens
  {
    ReachableInv(st);
    forall e | e in st.queue
      ensures Min(Win(st, e.stream), st.conn) <= 0 || OwedStream(st, e.stream) || (e.needConn && OwedConn(st))
    {
      assert Covered(st, e.stream, e.needConn);
    }
  }

  /** No notifier is between growing a window and announcing it. */
  predicate AtRest(st: State) {
    st.reader.Ready? && !st.closer.OwesClosed? && LockFree(st)
  }

  /** At rest nobody sleeps on usable credit, and after Close nobody sleeps at all. */
  lemma NobodySleepsOnCredit(st: State)
    requires Reachable(st) && AtRest(st)
    ensures forall e :: e in st.queue ==> TakeAmount(Win(st, e.stream), st.conn, 1).None?
    ensures st.closer.Closed? ==> st.queue == []
  {
    ReachableInv(st);
    NoLostWakeup(st);
  }

  /** The per-stream ledger whenever the table lock is free. Since only the walk
      and the seeding read the setting, the equation says that each delta of
      section 6.9.2 of RFC 9113 reached each live stream exactly once. */
  lemma StreamCreditLedger(st: State, s: Stream)
    requires Reachable(st) && s in st.live && !st.reader.Walking?
    ensures var b := Book(st, s);
      Win(st, s) + b.written + b.abandoned + SumStream(st.writers, s) + b.lost == st.initial + b.granted
    ensures Book(st, s).lost >= 0 && SumStream(st.writers, s) >= 0
  {
    ReachableInv(st);
    assert BooksKept(st, s);
    HeldNonNegative(st, st.writers, s);
  }

  /** Never more DATA than the peer authorised: what is on the wire or on its way
      there fits the starting credit plus the accepted increments. */
  lemma NeverOversend(st: State)
    requires Reachable(st)
    ensures InRange(st.conn)
    ensures SumConn(st.writers) >= 0
    ensures st.connBook.written + SumConn(st.writers) <= INITIAL_WINDOW + st.connBook.granted
  {
    ReachableInv(st);
    assert BooksKept(st, 0);
    HeldNonNegative(st, st.writers, 0);
  }

  /** The SETTINGS delta is narrowed to 32 bits after an upper-bound test alone.
      In every reachable state that narrowing is exact. */
  lemma DeltaNeverWraps(st: State, s: Stream)
    requires Reachable(st) && Enabled(st, Adjust(s)) && !Step(st, Adjust(s)).failed
    ensures Win(Step(st, Adjust(s)), s) == Win(st, s) + (st.initial - st.reader.was)
    ensures st.initial - MAX_WINDOW <= Win(Step(st, Adjust(s)), s) <= MAX_WINDOW
  {
    ReachableInv(st);
    assert Seen(st, s) == st.reader.was;
  }

  lemma WindowBounds(st: State, s: Stream)
    requires Reachable(st) && s in st.live && !st.reader.Walking?
    ensures st.initial - MAX_WINDOW <= Win(st, s) <= MAX_WINDOW
  {
    ReachableInv(st);
  }

  /** When a stream window grows: on a refund, whose writer holds fcOutMu, or on an accepted
      WINDOW_UPDATE or a raised initial size, which take the stream's own lock only. */
  lemma GrowthIff(st: State, a: Action, s: Stream)
    requires Reachable(st) && Enabled(st, a) && s in st.win
    ensures Win(Step(st, a), s) > Win(st, s) <==>
      || (a.RefundStream? && PcOf(st, a.w).s == s && Win(st, s) < MAX_WINDOW)
      || (a.GrantStream? && a.s == s && 0 < a.inc <= MAX_WINDOW - Win(st, s))
      || (a.Adjust? && a.s == s && 0 < st.initial - st.reader.was <= MAX_WINDOW - Win(st, s))
    ensures a.RefundStream? ==> st.lock == Some(a.w)
  {
    ReachableInv(st);
    if Quiet(a) {
      QuietKeepsMoney(st, a);
    } else if a.Take? || a.RefundConn? || a.RefundStream? || a.Write? || a.Abandon? {
      assert PcKnown(st, PcOf(st, a.w));
    } else if a.Adjust? && !Step(st, a).failed && a.s == s {
      DeltaNeverWraps(st, s);
    }
  }

  /** A window that grows while a writer holds fcOutMu. */
  lemma GrowsUnderAnothersLock()
    ensures var st := Exec(1, [Admit(1), Enter(0, 1, 5)]);
      st.lock == Some(0) && Win(Step(st, GrantStream(1, 10)), 1) == Win(st, 1) + 10
  {
    var start, admitted := Init(1), Step(Init(1), Admit(1));
    assert [Admit(1), Enter(0, 1, 5)][..1] == [Admit(1)] && [Admit(1)][..0] == [];
    GrantAfterEnter(admitted, 0, 1);
  }

  lemma GrantAfterEnter(st: State, w: Writer, s: Stream)
    requires Enabled(st, Enter(w, s, 5)) && st.reader.Ready? && 0 <= Win(st, s) <= MAX_WINDOW - 10
    ensures var held := Step(st, Enter(w, s, 5)); held.lock == Some(w) && Win(Step(held, GrantStream(s, 10)), s) == Win(held, s) + 10
  {
  }

  /** Refunding a refused chunk with nothing in between restores both windows
      exactly and leaves no history. */
  lemma RefusedChunkRestores(st: State, w: Writer)
    requires Reachable(st) && Enabled(st, Take(w)) && PcOf(Step(st, Take(w)), w).Holding?
    ensures var st' := Step(Step(Step(Step(st, Take(w)), Refuse(w)), RefundConn(w)), RefundStream(w));
      st'.conn == st.conn && st'.win == st.win && st'.book == st.book && st'.connBook == st.connBook
  {
    ReachableInv(st);
    assert PcKnown(st, PcOf(st, w));
    RefundUndoesTake(st, w, PcOf(Step(st, Take(w)), w).n);
  }

  /** A chunk of k octets taken and then refused by authorizeSend. */
  lemma TakenAndRefused(st: State, w: Writer, k: int)
    requires KnownInv(st) && LockInv(st) && WindowInv(st) && Enabled(st, Take(w))
    requires k > 0 && PcOf(Step(st, Take(w)), w) == Holding(PcOf(st, w).s, k)
    ensures var s, st' := PcOf(st, w).s, Step(Step(st, Take(w)), Refuse(w));
      && !st'.failed && LockFree(st') && PcOf(st', w) == Refused(s, k) && s in st.win && s in st.book
      && st'.conn == st.conn - k && st'.win == st.win[s := Win(st, s) - k]
      && st'.book.Keys == st.book.Keys && 0 <= st'.conn <= MAX_WINDOW - k && 0 <= Win(st', s) <= MAX_WINDOW - k
  {
    var s := PcOf(st, w).s;
    assert PcKnown(st, PcOf(st, w));
    var s1 := Step(st, Take(w));
    assert s1.conn == st.conn - k && s1.win == st.win[s := Win(st, s) - k] && s1.lock.None?;
  }

  lemma RefundUndoesTake(st: State, w: Writer, k: int)
    requires KnownInv(st) && LockInv(st) && WindowInv(st) && Enabled(st, Take(w))
    requires k > 0 && PcOf(Step(st, Take(w)), w) == Holding(PcOf(st, w).s, k)
    ensures var st' := Step(Step(Step(Step(st, Take(w)), Refuse(w)), RefundConn(w)), RefundStream(w));
      st'.conn == st.conn && st'.win == st.win && st'.book == st.book && st'.connBook == st.connBook
  {
    var s := PcOf(st, w).s;
    TakenAndRefused(st, w, k);
    RefundStepsAdd(Step(Step(st, Take(w)), Refuse(w)), w, s, k);
    assert st.win[s := Win(st, s)] == st.win;
    assert st.book[s := Book(st, s)] == st.book;
  }

  lemma RefundStepsAdd(st: State, w: Writer, s: Stream, k: int)
    requires !st.failed && LockFree(st) && PcOf(st, w) == Refused(s, k) && k > 0
    requires 0 <= st.conn <= MAX_WINDOW - k && 0 <= Win(st, s) <= MAX_WINDOW - k
    requires s in st.win && s in st.book
    ensures var st' := Step(Step(st, RefundConn(w)), RefundStream(w));
      st'.conn == st.conn + k && st'.win == st.win[s := Win(st, s) + k] &&
      st'.book == st.book[s := Book(st, s)] && st'.connBook == st.connBook
  {
  }
}
