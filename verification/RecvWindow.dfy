/** Receive flow control: the connection's window, refunded on receipt, and a
    stream's window, refunded when the application takes delivery. */
module RecvWindow {
  import opened Windows

  const REFUND_THRESHOLD := 32768

  // A frame carries its length in 24 bits.
  const FRAME_LENGTHS := 0x100_0000

  /** A receive window and the credit saved up for the next WINDOW_UPDATE. */
  datatype Account = Account(window: int, pending: nat)

  /** The int32 range, as the ledgers below keep it. */
  predicate InRange(a: Account) { 0 <= a.window && a.window + a.pending <= MAX_WINDOW }

  function EffectiveConnRecvWindow(option: int): (r: int)
    ensures INITIAL_WINDOW <= r <= MAX_WINDOW
    ensures INITIAL_WINDOW <= option <= MAX_WINDOW ==> r == option
    ensures option < INITIAL_WINDOW ==> r == INITIAL_WINDOW
    ensures option > MAX_WINDOW ==> r == MAX_WINDOW
  {
    if option <= INITIAL_WINDOW then INITIAL_WINDOW else Min(option, MAX_WINDOW)
  }

  /** Save n octets up; from the threshold on, everything saved goes back into the
      window. */
  function Saved(a: Account, n: nat): Account {
    if a.pending + n >= REFUND_THRESHOLD then Account(a.window + a.pending + n, 0) else a.(pending := a.pending + n)
  }

  /** The WINDOW_UPDATE that goes with it; 0 for none. */
  function Refund(a: Account, n: nat): nat {
    if a.pending + n >= REFUND_THRESHOLD then a.pending + n else 0
  }

  // ---------------------------------------------------------------- the objects

  class StreamAccount {
    var recvWindow: int
    var recvRefundPending: nat

    function Value(): Account
      reads this
    {
      Account(recvWindow, recvRefundPending)
    }

    constructor (seed: int)
      ensures Value() == Account(seed, 0)
    {
      recvWindow, recvRefundPending := seed, 0;
    }

    /** creditConsumed for a Data event of n octets: the increment to announce, or 0. */
    method CreditConsumed(n: nat) returns (refund: nat)
      requires 0 <= recvWindow && recvWindow + recvRefundPending + n <= MAX_WINDOW
      modifies this
      ensures n == 0 ==> Value() == old(Value()) && refund == 0
      ensures n > 0 ==> Value() == Saved(old(Value()), n) && refund == Refund(old(Value()), n)
    {
      refund := 0;
      if n == 0 {
        return;
      }
      recvRefundPending := recvRefundPending + n;
      if recvRefundPending >= REFUND_THRESHOLD {
        refund := recvRefundPending;
        recvRefundPending := 0;
        recvWindow := ToInt32(recvWindow + ToInt32(refund));
      }
    }
  }

  class ConnAccount {
    var connRecvWindow: int
    var connRefundPending: nat

    function Value(): Account
      reads this
    {
      Account(connRecvWindow, connRefundPending)
    }

    constructor (option: int)
      ensures Value() == Account(EffectiveConnRecvWindow(option), 0)
    {
      connRecvWindow, connRefundPending := EffectiveConnRecvWindow(option), 0;
    }

    /** One DATA frame of `length` octets, for a stream or for none. An overdrawn
        window of either kind is a connection error; otherwise the stream is only
        debited, and the connection gets its refund at once. */
    method OnDataReceived(s: StreamAccount?, length: nat) returns (overdrawn: bool, refund: nat)
      requires length < FRAME_LENGTHS && InRange(Value()) && (s != null ==> InRange(s.Value()))
      modifies this, s
      ensures overdrawn <==> (s != null && old(s.recvWindow) < length) || old(connRecvWindow) < length
      ensures s != null ==> s.Value() == old(s.Value()).(window := old(s.recvWindow) - length)
      ensures !overdrawn ==> Value() == Saved(old(Value()).(window := old(connRecvWindow) - length), length)
      ensures refund == if overdrawn then 0 else Refund(old(Value()), length)
    {
      refund := 0;
      var debit := ToInt32(length);
      if s != null {
        s.recvWindow := ToInt32(s.recvWindow - debit);
        if s.recvWindow < 0 {
          return true, 0;
        }
      }
      connRecvWindow := ToInt32(connRecvWindow - debit);
      if connRecvWindow < 0 {
        return true, 0;
      }
      connRefundPending := connRefundPending + length;
      if connRefundPending >= REFUND_THRESHOLD {
        refund := connRefundPending;
        connRefundPending := 0;
        connRecvWindow := ToInt32(connRecvWindow + ToInt32(refund));
      }
      overdrawn := false;
    }
  }

  // ---------------------------------------------------------------- the connection, both ends

  /** Client and server with DATA lengths and WINDOW_UPDATE increments in flight.
      ready: the handshake is over and the enlarged window has been announced. */
  datatype Link = Link(
    account: Account, ready: bool, overdrawn: bool,
    data: seq<nat>, updates: seq<nat>, credit: int)

  datatype Move = Send(length: nat) | Arrive | Handshake | Learn

  function Opening(option: int): Link {
    Link(Account(EffectiveConnRecvWindow(option), 0), false, false, [], [], INITIAL_WINDOW)
  }

  function Announce(updates: seq<nat>, increment: int): seq<nat> {
    if increment > 0 then updates + [increment] else updates
  }

  /** The client spends only credit it has heard of. */
  function Step(l: Link, m: Move): Link {
    if l.overdrawn then l
    else
      match m
      case Send(n) => if n <= l.credit then l.(data := l.data + [n], credit := l.credit - n) else l
      case Arrive =>
        if l.data == [] then l
        else
          var n, spent := l.data[0], l.account.(window := l.account.window - l.data[0]);
          if spent.window < 0 then l.(data := l.data[1..], account := spent, overdrawn := true)
          else l.(data := l.data[1..], account := Saved(spent, n), updates := Announce(l.updates, Refund(spent, n)))
      case Handshake =>
        if l.ready then l
        else l.(ready := true, updates := Announce(l.updates, l.account.window - INITIAL_WINDOW))
      case Learn =>
        if l.updates == [] then l else l.(updates := l.updates[1..], credit := l.credit + l.updates[0])
  }

  function Exec(option: int, moves: seq<Move>): Link {
    if moves == [] then Opening(option) else Step(Exec(option, moves[..|moves| - 1]), moves[|moves| - 1])
  }

  function Sum(s: seq<nat>): nat {
    if s == [] then 0 else s[0] + Sum(s[1..])
  }

  lemma {:induction false} SumSnoc(s: seq<nat>, n: nat)
    ensures Sum(s + [n]) == Sum(s) + n
  {
    if s == [] {
      assert s + [n] == [n];
    } else {
      assert (s + [n])[1..] == s[1..] + [n];
      SumSnoc(s[1..], n);
    }
  }

  /** What the server would still take beyond everything the client may ever send
      without another update. */
  function Unannounced(l: Link): int {
    l.account.window - l.credit - Sum(l.data) - Sum(l.updates)
  }

  /** The first clause is the promise: window and savings always make up the
      effective window. */
  predicate LinkInv(l: Link, effective: int) {
    && l.account.window + l.account.pending == effective
    && !l.overdrawn && l.credit >= 0 && l.account.pending < REFUND_THRESHOLD
    && if l.ready then 0 <= Unannounced(l) <= effective - INITIAL_WINDOW
       else Unannounced(l) == effective - INITIAL_WINDOW
  }

  lemma StepKeepsLink(l: Link, m: Move, effective: int)
    requires LinkInv(l, effective) && INITIAL_WINDOW <= effective
    ensures LinkInv(Step(l, m), effective)
  {
    match m
    case Send(n) =>
      SumSnoc(l.data, n);
    case Arrive =>
      if l.data != [] {
        var n := l.data[0];
        SumSnoc(l.updates, Refund(l.account, n));
      }
    case Handshake =>
      if l.account.window > INITIAL_WINDOW {
        SumSnoc(l.updates, l.account.window - INITIAL_WINDOW);
      }
    case Learn =>
  }

  lemma {:induction false} RunKeepsLink(option: int, moves: seq<Move>)
    ensures LinkInv(Exec(option, moves), EffectiveConnRecvWindow(option))
  {
    if moves != [] {
      RunKeepsLink(option, moves[..|moves| - 1]);
      StepKeepsLink(Exec(option, moves[..|moves| - 1]), moves[|moves| - 1], EffectiveConnRecvWindow(option));
    }
  }

  /** In every run connRecvWindow + connRefundPending is the effective window, and a
      client that spends only credit it has received never draws a connection
      FLOW_CONTROL_ERROR. */
  lemma NeverOverdrawn(option: int, moves: seq<Move>)
    ensures var l := Exec(option, moves);
            && !l.overdrawn && l.account.window + l.account.pending == EffectiveConnRecvWindow(option)
            && 0 <= l.account.window <= MAX_WINDOW
            && (forall n :: n in l.data ==> n <= l.account.window)
  {
    RunKeepsLink(option, moves);
    var l := Exec(option, moves);
    forall n | n in l.data
      ensures n <= Sum(l.data)
    {
      PartOfSum(l.data, n);
    }
  }

  lemma {:induction false} PartOfSum(s: seq<nat>, n: nat)
    requires n in s
    ensures n <= Sum(s)
  {
    if s[0] != n {
      PartOfSum(s[1..], n);
    }
  }

  /** Once nothing is in flight the client can send at least 32768 octets. */
  lemma NeverStalled(option: int, moves: seq<Move>)
    requires Exec(option, moves).data == [] && Exec(option, moves).updates == []
    ensures Exec(option, moves).credit >= REFUND_THRESHOLD
  {
    RunKeepsLink(option, moves);
  }

  // ------------------------------------------------- the announcement of a larger window

  lemma {:induction false} ReadyStays(option: int, before: seq<Move>, after: seq<Move>)
    requires Exec(option, before).ready
    ensures Exec(option, before + after).ready
    ensures Unannounced(Exec(option, before + after)) == Unannounced(Exec(option, before))
  {
    if after == [] {
      assert before + after == before;
    } else {
      var init, m := after[..|after| - 1], after[|after| - 1];
      assert (before + after)[..|before + after| - 1] == before + init;
      ReadyStays(option, before, init);
      RunKeepsLink(option, before + init);
      UnannouncedStays(Exec(option, before + init), m, EffectiveConnRecvWindow(option));
    }
  }

  lemma UnannouncedStays(l: Link, m: Move, effective: int)
    requires LinkInv(l, effective) && l.ready
    ensures Step(l, m).ready && Unannounced(Step(l, m)) == Unannounced(l)
  {
    match m
    case Send(n) =>
      SumSnoc(l.data, n);
    case Arrive =>
      if l.data != [] {
        SumSnoc(l.updates, Refund(l.account, l.data[0]));
      }
    case _ =>
  }

  /** sendInitialConnWindowUpdate measures against the window as it is, not as it
      was seeded, so octets that arrive during the handshake and wait for their
      refund are left out of the announcement for good. The client gets the whole
      of an enlarged window if and only if none are waiting at that moment. */
  lemma AnnouncedInFullIff(option: int, before: seq<Move>, after: seq<Move>)
    requires !Exec(option, before).ready
    ensures Unannounced(Exec(option, before + [Handshake] + after)) == 0
            <==> Exec(option, before).account.pending == 0 || EffectiveConnRecvWindow(option) == INITIAL_WINDOW
  {
    var l := Exec(option, before);
    RunKeepsLink(option, before);
    assert (before + [Handshake])[..|before|] == before;
    if l.account.window > INITIAL_WINDOW {
      SumSnoc(l.updates, l.account.window - INITIAL_WINDOW);
    }
    ReadyStays(option, before + [Handshake], after);
  }

  lemma AnnouncementMayFallShort()
    ensures Unannounced(Exec(100000, [Send(1), Arrive] + [Handshake] + [])) == 1
  {
    var s0 := Opening(100000);
    var s1 := Step(s0, Send(1));
    var s2 := Step(s1, Arrive);
    var s3 := Step(s2, Handshake);
    assert s2 == Link(Account(99999, 1), false, false, [], [], 65534);
    assert s3 == Link(Account(99999, 1), true, false, [], [34464], 65534);
    assert Sum([34464]) == 34464;
    assert [Send(1), Arrive][..1] == [Send(1)] && [Send(1)][..0] == [];
    assert Exec(100000, [Send(1)]) == s1 && Exec(100000, [Send(1), Arrive]) == s2;
    assert ([Send(1), Arrive] + [Handshake])[..2] == [Send(1), Arrive];
    assert [Send(1), Arrive] + [Handshake] + [] == [Send(1), Arrive] + [Handshake];
  }
}
