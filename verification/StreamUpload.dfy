/** One stream's receive window while its reader and its handler both run. The
    reader debits a DATA frame and then queues its payload; the handler takes an
    event and then credits it. Each half is one step. */
module StreamUpload {
  import opened Windows
  import opened RecvWindow

  /** queue: payload sizes of the unread events. inReader, inHandler: a payload
      debited and not yet queued, taken and not yet credited. padding: octets of
      padding received. granted: the sum of the WINDOW_UPDATEs written. refunded: what
      went back into the window, announced or not. */
  datatype Upload = Upload(
    account: Account, inReader: Option<nat>, queue: seq<nat>, inHandler: Option<nat>,
    padding: nat, received: nat, granted: nat, refunded: nat, reset: bool, overdrawn: bool)

  datatype Move =
    | Debit(data: nat, pad: nat)
    | Queue(room: bool)
    | Take
    | Credit
    | Cancel

  function Opened(seed: int): Upload {
    Upload(Account(seed, 0), None, [], None, 0, 0, 0, 0, false, false)
  }

  function Step(u: Upload, m: Move): Upload {
    if u.overdrawn then u
    else
      match m
      case Debit(data, pad) =>
        if u.inReader.Some? then u
        else
          var spent := u.account.(window := u.account.window - (data + pad));
          if spent.window < 0 then u.(account := spent, overdrawn := true)
          else u.(account := spent, inReader := Some(data), padding := u.padding + pad, received := u.received + data + pad)
      case Queue(room) =>
        if u.inReader.None? then u
        else if room then u.(inReader := None, queue := u.queue + [u.inReader.value])
        else u.(inReader := None, reset := true)
      case Take =>
        if u.inHandler.Some? || u.queue == [] then u
        else u.(inHandler := Some(u.queue[0]), queue := u.queue[1..])
      case Credit =>
        if u.inHandler.None? then u
        else if u.inHandler.value == 0 then u.(inHandler := None)
        else
          var refund := Refund(u.account, u.inHandler.value);
          u.(account := Saved(u.account, u.inHandler.value), inHandler := None, refunded := u.refunded + refund,
             granted := if u.reset then u.granted else u.granted + refund)
      case Cancel => u.(reset := true)
  }

  function Exec(seed: int, run: seq<Move>): Upload {
    if run == [] then Opened(seed) else Step(Exec(seed, run[..|run| - 1]), run[|run| - 1])
  }

  function Held(n: Option<nat>): nat { if n.None? then 0 else n.value }

  /** Everything debited is somewhere: back in the window, saved up, waiting to be
      read, in someone's hands, or padding. */
  function Total(u: Upload): int {
    u.account.window + u.account.pending + Sum(u.queue) + Held(u.inReader) + Held(u.inHandler) + u.padding
  }

  predicate LedgerInv(u: Upload, seed: int) {
    && u.account.pending < REFUND_THRESHOLD
    && u.account.window == seed + u.refunded - u.received
    && u.granted <= u.refunded
    && (!u.reset ==> Total(u) == seed && u.granted == u.refunded)
    && Total(u) <= seed && u.account.window >= 0
  }

  lemma StepKeepsLedger(u: Upload, m: Move, seed: int)
    requires LedgerInv(u, seed) || u.overdrawn
    ensures LedgerInv(Step(u, m), seed) || Step(u, m).overdrawn
  {
    if m.Queue? && u.inReader.Some? {
      SumSnoc(u.queue, u.inReader.value);
    }
  }

  lemma {:induction false} RunKeepsLedger(seed: int, run: seq<Move>)
    requires 0 <= seed
    ensures LedgerInv(Exec(seed, run), seed) || Exec(seed, run).overdrawn
  {
    if run != [] {
      RunKeepsLedger(seed, run[..|run| - 1]);
      StepKeepsLedger(Exec(seed, run[..|run| - 1]), run[|run| - 1], seed);
    }
  }

  /** At every step of reader and handler, for a stream not reset: window + savings +
      unread octets + padding (and what is in hand between two steps) is the seed. */
  lemma StreamLedger(seed: int, run: seq<Move>)
    requires 0 <= seed && !Exec(seed, run).overdrawn && !Exec(seed, run).reset
    ensures var u := Exec(seed, run);
            u.account.window + u.account.pending + Sum(u.queue) + u.padding + Held(u.inReader) + Held(u.inHandler) == seed
  {
    RunKeepsLedger(seed, run);
  }

  /** A client that stays within the seed plus the increments it was granted never
      overdraws the window; and the int32 counters stay in range. */
  lemma ObedientClientIsServed(seed: int, run: seq<Move>, data: nat, pad: nat)
    requires 0 <= seed <= MAX_WINDOW && !Exec(seed, run).overdrawn
    requires Exec(seed, run).received + data + pad <= seed + Exec(seed, run).granted
    ensures !Step(Exec(seed, run), Debit(data, pad)).overdrawn
    ensures InRange(Exec(seed, run).account)
  {
    RunKeepsLedger(seed, run);
  }

  /** The handler or the connection gave the stream up, or its event buffer was full. */
  predicate Resets(u: Upload, m: Move) { !u.overdrawn && (m.Cancel? || (m.Queue? && !m.room && u.inReader.Some?)) }

  predicate EverReset(seed: int, run: seq<Move>) {
    run != [] && (EverReset(seed, run[..|run| - 1]) || Resets(Exec(seed, run[..|run| - 1]), run[|run| - 1]))
  }

  /** Over every run the stream is reset exactly if that happened; from then on nothing is
      granted. A frame overdraws exactly if it is longer than the window. */
  lemma {:induction false} ResetIsHistory(seed: int, run: seq<Move>, m: Move)
    ensures var u := Exec(seed, run);
      && (u.reset <==> EverReset(seed, run)) && (u.reset ==> Step(u, m).granted == u.granted)
      && (!u.overdrawn ==> (Step(u, m).overdrawn <==> m.Debit? && u.inReader.None? && m.data + m.pad > u.account.window))
  {
    if run != [] {
      ResetIsHistory(seed, run[..|run| - 1], m);
    }
  }

  // ---------------------------------------------------------------- no stall

  predicate AtRest(u: Upload) { u.inReader.None? && u.inHandler.None? && u.queue == [] }

  /** However an upload goes, as long as at most `slack` octets of it are padding: once
      all of it has been read, the client may send more. */
  ghost predicate NeverStalls(seed: int, slack: nat) {
    forall run :: var u := Exec(seed, run);
      !u.reset && !u.overdrawn && AtRest(u) && u.padding <= slack ==> u.account.window > 0
  }

  /** One frame of one octet, of data or of padding, sent and read. */
  function OneOctet(padding: bool): seq<Move> {
    [if padding then Debit(0, 1) else Debit(1, 0), Queue(true), Take, Credit]
  }

  function Trickle(data: nat, pad: nat): seq<Move> {
    if pad > 0 then Trickle(data, pad - 1) + OneOctet(true)
    else if data > 0 then Trickle(data - 1, 0) + OneOctet(false)
    else []
  }

  /** Where a trickle of data and padding leaves the stream. */
  function Trickled(seed: int, data: nat, pad: nat): Upload {
    Upload(Account(seed - data - pad, data), None, [], None, pad, data + pad, 0, 0, false, false)
  }

  lemma ExecSnoc(seed: int, run: seq<Move>, m: Move)
    ensures Exec(seed, run + [m]) == Step(Exec(seed, run), m)
  {
    assert (run + [m])[..|run|] == run;
  }

  lemma FourSteps(seed: int, run: seq<Move>, a: Move, b: Move, c: Move, d: Move)
    ensures Exec(seed, run + [a, b, c, d]) == Step(Step(Step(Step(Exec(seed, run), a), b), c), d)
  {
    assert run + [a, b, c, d] == run + [a] + [b] + [c] + [d];
    ExecSnoc(seed, run, a);
    ExecSnoc(seed, run + [a], b);
    ExecSnoc(seed, run + [a] + [b], c);
    ExecSnoc(seed, run + [a] + [b] + [c], d);
  }

  lemma {:induction false} TrickleRuns(seed: int, data: nat, pad: nat)
    requires data + pad <= seed && data < REFUND_THRESHOLD
    ensures Exec(seed, Trickle(data, pad)) == Trickled(seed, data, pad)
    decreases data + pad
  {
    if pad > 0 {
      TrickleRuns(seed, data, pad - 1);
      FourSteps(seed, Trickle(data, pad - 1), Debit(0, 1), Queue(true), Take, Credit);
    } else if data > 0 {
      TrickleRuns(seed, data - 1, 0);
      FourSteps(seed, Trickle(data - 1, 0), Debit(1, 0), Queue(true), Take, Credit);
    }
  }

  /** Padding is debited and never refunded, and up to 32767 octets of data wait for
      the threshold. So an upload with at most `slack` octets of padding can never
      stall if and only if the seed exceeds the two together; without padding, if and
      only if the seed is at least 32768. */
  lemma StallIff(seed: int, slack: nat)
    requires 0 < seed <= MAX_WINDOW
    ensures NeverStalls(seed, slack) <==> slack + (REFUND_THRESHOLD - 1) < seed
  {
    if slack + (REFUND_THRESHOLD - 1) < seed {
      forall run | !Exec(seed, run).reset && !Exec(seed, run).overdrawn && AtRest(Exec(seed, run)) && Exec(seed, run).padding <= slack
        ensures Exec(seed, run).account.window > 0
      {
        RunKeepsLedger(seed, run);
      }
    } else {
      var data := Min(seed, REFUND_THRESHOLD - 1);
      var pad := seed - data;
      TrickleRuns(seed, data, pad);
      assert Exec(seed, Trickle(data, pad)).account.window == 0;
    }
  }
}
