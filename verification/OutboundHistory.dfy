/** The books of Outbound in terms of the run: what was granted, written and set, which
    streams are registered, and whether the connection is closed or has failed. */
module OutboundHistory {
  import opened Windows
  import opened Outbound
  import opened OutboundLedger

  /** A WINDOW_UPDATE that the connection, or the stream, takes. */
  function ConnGrant(st: State, a: Action): int {
    if Enabled(st, a) && a.GrantConn? && st.conn + a.inc <= MAX_WINDOW then a.inc else 0
  }

  function StreamGrant(st: State, a: Action, s: Stream): int {
    if Enabled(st, a) && a.GrantStream? && a.s == s && Win(st, s) + a.inc <= MAX_WINDOW then a.inc else 0
  }

  /** The DATA octets a step puts on the wire. */
  function ConnWrite(st: State, a: Action): int {
    if Enabled(st, a) && a.Write? then ConnHeld(PcOf(st, a.w)) else 0
  }

  function StreamWrite(st: State, a: Action, s: Stream): int {
    if Enabled(st, a) && a.Write? then StreamHeld(PcOf(st, a.w), s) else 0
  }

  /** A step that is a connection error: a window past 2^31-1. */
  predicate Breaks(st: State, a: Action) {
    && Enabled(st, a)
    && ((a.GrantConn? && st.conn + a.inc > MAX_WINDOW)
        || (a.Adjust? && Win(st, a.s) + (st.initial - st.reader.was) > MAX_WINDOW))
  }

  /** What a run amounts to. */
  datatype Past = Past(granted: int, written: int, initial: int, live: set<Stream>, closed: bool, failed: bool)

  function History(n: nat, acts: seq<Action>): Past {
    if acts == [] then Past(0, 0, INITIAL_WINDOW, {}, false, false)
    else
      var h, st, a := History(n, acts[..|acts| - 1]), Exec(n, acts[..|acts| - 1]), acts[|acts| - 1];
      Past(
        granted := h.granted + ConnGrant(st, a),
        written := h.written + ConnWrite(st, a),
        initial := if Enabled(st, a) && a.Settings? then a.value else h.initial,
        live := if !Enabled(st, a) then h.live else if a.Admit? then h.live + {a.s} else if a.Release? then h.live - {a.s} else h.live,
        closed := h.closed || (Enabled(st, a) && a.Close?),
        failed := h.failed || Breaks(st, a))
  }

  /** The same for one stream. */
  function StreamGrants(n: nat, acts: seq<Action>, s: Stream): int {
    if acts == [] then 0
    else StreamGrants(n, acts[..|acts| - 1], s) + StreamGrant(Exec(n, acts[..|acts| - 1]), acts[|acts| - 1], s)
  }

  function StreamWrites(n: nat, acts: seq<Action>, s: Stream): int {
    if acts == [] then 0
    else StreamWrites(n, acts[..|acts| - 1], s) + StreamWrite(Exec(n, acts[..|acts| - 1]), acts[|acts| - 1], s)
  }

  predicate Matches(st: State, h: Past) {
    && st.connBook.granted == h.granted && st.connBook.written == h.written && st.initial == h.initial && st.live == h.live
    && (IsClosed(st) <==> h.closed) && st.failed == h.failed
  }

  lemma WriterMatches(st: State, a: Action)
    requires ByWriter(a)
    ensures var r := Step(st, a);
      && r.connBook.granted == st.connBook.granted && r.connBook.written == st.connBook.written + ConnWrite(st, a)
      && r.initial == st.initial && r.live == st.live && r.closer == st.closer && r.failed == st.failed
  {
  }

  lemma OtherMatches(st: State, a: Action)
    requires !ByWriter(a)
    ensures var r := Step(st, a);
      && r.connBook.granted == st.connBook.granted + ConnGrant(st, a) && r.connBook.written == st.connBook.written
      && r.initial == (if Enabled(st, a) && a.Settings? then a.value else st.initial)
      && r.live == (if !Enabled(st, a) then st.live else if a.Admit? then st.live + {a.s} else if a.Release? then st.live - {a.s} else st.live)
      && (IsClosed(r) <==> IsClosed(st) || (Enabled(st, a) && a.Close?)) && r.failed == (st.failed || Breaks(st, a))
  {
  }

  /** Over every run the connection's books are the increments it took and the DATA it
      wrote; the initial size is the last SETTINGS value; the registered streams are
      those admitted and not released; it is closed exactly after Close; and it has
      failed exactly if an increment or a delta took a window past 2^31-1. */
  lemma {:induction false} ConnIsHistory(n: nat, acts: seq<Action>)
    ensures Matches(Exec(n, acts), History(n, acts))
  {
    if acts != [] {
      var st, a := Exec(n, acts[..|acts| - 1]), acts[|acts| - 1];
      ConnIsHistory(n, acts[..|acts| - 1]);
      if ByWriter(a) {
        WriterMatches(st, a);
      } else {
        OtherMatches(st, a);
      }
    }
  }

  lemma WriterBooks(st: State, a: Action, s: Stream)
    requires ByWriter(a)
    ensures Book(Step(st, a), s).granted == Book(st, s).granted
    ensures Book(Step(st, a), s).written == Book(st, s).written + StreamWrite(st, a, s)
  {
  }

  lemma OtherBooks(st: State, a: Action, s: Stream)
    requires !ByWriter(a) && DomainInv(st)
    ensures Book(Step(st, a), s).granted == Book(st, s).granted + StreamGrant(st, a, s)
    ensures Book(Step(st, a), s).written == Book(st, s).written
  {
  }

  /** And so are the books of every stream. With StreamCreditLedger: its window is the
      last initial size plus its increments, less the DATA written and the credit held
      or lost. */
  lemma {:induction false} StreamIsHistory(n: nat, acts: seq<Action>, s: Stream)
    ensures Book(Exec(n, acts), s).granted == StreamGrants(n, acts, s)
    ensures Book(Exec(n, acts), s).written == StreamWrites(n, acts, s)
  {
    if acts != [] {
      var st, a := Exec(n, acts[..|acts| - 1]), acts[|acts| - 1];
      StreamIsHistory(n, acts[..|acts| - 1], s);
      EveryRunKeepsInv(n, acts[..|acts| - 1]);
      if ByWriter(a) {
        WriterBooks(st, a, s);
      } else {
        OtherBooks(st, a, s);
      }
    }
  }

  lemma RestTakesGrants(st: State, inc: int, s: Stream)
    requires AtRest(st) && !st.failed && WindowInv(st) && 0 <= inc <= MAX_WINDOW
    ensures var r := Step(st, GrantConn(inc)); if st.conn + inc <= MAX_WINDOW then r.conn == st.conn + inc && !r.failed else r.failed
    ensures s in st.win ==> Win(Step(st, GrantStream(s, inc)), s) == if Win(st, s) + inc <= MAX_WINDOW then Win(st, s) + inc else Win(st, s)
  {
  }

  lemma RestTakesSettings(st: State, value: int)
    requires AtRest(st) && !st.failed && 0 <= value <= MAX_WINDOW
    ensures Step(st, Settings(value)).initial == value && IsClosed(Step(st, Close))
  {
  }

  lemma RestTakesStreams(st: State, s: Stream)
    requires AtRest(st) && !st.failed && InRange(st.initial)
    ensures s !in st.win ==> s in Step(st, Admit(s)).live && Win(Step(st, Admit(s)), s) == st.initial
    ensures s !in Step(st, Release(s)).live
  {
  }

  /** At rest every frame is taken in: an increment grows its window or overflows it, a
      SETTINGS value becomes the initial size, a new stream starts with it, a stream can
      be released and the connection closed. */
  lemma RestTakesAll(st: State, inc: int, s: Stream)
    requires Reachable(st) && AtRest(st) && !st.failed && 0 <= inc <= MAX_WINDOW
    ensures var r := Step(st, GrantConn(inc)); if st.conn + inc <= MAX_WINDOW then r.conn == st.conn + inc && !r.failed else r.failed
    ensures s in st.win ==> Win(Step(st, GrantStream(s, inc)), s) == if Win(st, s) + inc <= MAX_WINDOW then Win(st, s) + inc else Win(st, s)
    ensures Step(st, Settings(inc)).initial == inc
    ensures s !in st.win ==> s in Step(st, Admit(s)).live && Win(Step(st, Admit(s)), s) == st.initial
    ensures s !in Step(st, Release(s)).live && IsClosed(Step(st, Close))
  {
    ReachableInv(st);
    RestTakesGrants(st, inc, s);
    RestTakesSettings(st, inc);
    RestTakesStreams(st, s);
  }
}
