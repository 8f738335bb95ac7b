/** Owed wakes arrive: what the holder of fcOutMu, the reader goroutine and Close have
    begun, they can always finish on their own. */
module OutboundProgress {
  import opened Windows
  import opened Outbound
  import opened OutboundLedger

  /** A step that finishes what was begun: the next one of the writer that holds
      fcOutMu, one that the reader owes, or the wake that Close owes. */
  predicate Settling(st: State, a: Action) {
    Enabled(st, a) &&
    match a
    case Take(_) => true
    case Sample(_) => true
    case Park(_) => true
    case RefundStream(_) => true
    case RefundWake(_) => true
    case WakeStream => true
    case Adjust(_) => true
    case WalkDone => true
    case WakeAll => true
    case CloseWake => true
    case _ => false
  }

  function PcRank(pc: Pc): nat {
    match pc
    case Trying(_, _, _) => 3
    case Failed(_, _) => 2
    case Sampled(_, _, _) => 1
    case RefundedConn(_, _) => 2
    case RefundedBoth(_, _) => 1
    case _ => 0
  }

  function LockRank(st: State): nat {
    if st.lock.Some? then PcRank(PcOf(st, st.lock.value)) else 0
  }

  function ReaderRank(r: Reader): nat {
    match r
    case Ready => 0
    case OwesStream(_) => 1
    case Walking(_, todo) => |todo| + 2
    case OwesAll => 1
  }

  /** How many steps are left to finish. */
  function Rank(st: State): nat {
    LockRank(st) + ReaderRank(st.reader) + if st.closer.OwesClosed? then 1 else 0
  }

  predicate ByHolder(a: Action) { a.Take? || a.Sample? || a.Park? || a.RefundStream? || a.RefundWake? }

  lemma HolderMoves(st: State, a: Action)
    requires LockInv(st) && KnownInv(st) && Settling(st, a) && ByHolder(a)
    ensures st.lock == Some(a.w) && Step(st, a).reader == st.reader && Step(st, a).closer == st.closer && !Step(st, a).failed
    ensures LockRank(Step(st, a)) < LockRank(st)
  {
    assert HoldsLock(st.writers[a.w]);
    assert PcKnown(st, st.writers[a.w]);
  }

  lemma NotifierMoves(st: State, a: Action)
    requires Settling(st, a) && !ByHolder(a)
    ensures Step(st, a).failed || (LockRank(Step(st, a)) == LockRank(st) && Rank(Step(st, a)) < Rank(st))
  {
  }

  lemma SettlingLowersRank(st: State, a: Action)
    requires Inv(st) && Settling(st, a)
    ensures Step(st, a).failed || Rank(Step(st, a)) < Rank(st)
  {
    if ByHolder(a) {
      HolderMoves(st, a);
    } else {
      NotifierMoves(st, a);
    }
  }

  /** Short of rest, some such step is always possible. */
  lemma SomebodySettles(st: State) returns (a: Action)
    requires Inv(st) && !st.failed && !AtRest(st)
    ensures Settling(st, a)
  {
    if st.lock.Some? {
      var w := st.lock.value;
      assert HoldsLock(st.writers[w]);
      match st.writers[w]
      case Trying(_, _, _) => a := Take(w);
      case Failed(_, _) => a := Sample(w);
      case Sampled(_, _, _) => a := Park(w);
      case RefundedConn(_, _) => a := RefundStream(w);
      case RefundedBoth(_, _) => a := RefundWake(w);
    } else if st.closer.OwesClosed? {
      a := CloseWake;
    } else {
      match st.reader
      case OwesStream(_) => a := WakeStream;
      case OwesAll => a := WakeAll;
      case Walking(_, todo) =>
        if todo == {} {
          a := WalkDone;
        } else {
          var s :| s in todo;
          a := Adjust(s);
        }
    }
  }

  // ---------------------------------------------------------------- runs

  function Then(st: State, acts: seq<Action>): State
    decreases |acts|
  {
    if acts == [] then st else Then(Step(st, acts[0]), acts[1..])
  }

  predicate SettlingRun(st: State, acts: seq<Action>)
    decreases |acts|
  {
    acts == [] || (Settling(st, acts[0]) && SettlingRun(Step(st, acts[0]), acts[1..]))
  }

  lemma ReachableNext(st: State, a: Action)
    requires Reachable(st)
    ensures Reachable(Step(st, a))
  {
    var n: nat, acts: seq<Action> :| st == Exec(n, acts);
    assert (acts + [a])[..|acts|] == acts;
    assert Step(st, a) == Exec(n, acts + [a]);
  }

  /** Whatever the order, only so many such steps can be made, and when no more can be
      made the connection is at rest or has failed. */
  lemma {:induction false} SettlingEnds(st: State, acts: seq<Action>)
    requires Reachable(st) && SettlingRun(st, acts)
    ensures Reachable(Then(st, acts))
    ensures Then(st, acts).failed || |acts| + Rank(Then(st, acts)) <= Rank(st)
    ensures Then(st, acts).failed || AtRest(Then(st, acts)) || exists a :: Settling(Then(st, acts), a)
    decreases |acts|
  {
    if acts == [] {
      ReachableInv(st);
      if !st.failed && !AtRest(st) {
        var a := SomebodySettles(st);
      }
    } else {
      ReachableInv(st);
      ReachableNext(st, acts[0]);
      SettlingLowersRank(st, acts[0]);
      SettlingEnds(Step(st, acts[0]), acts[1..]);
    }
  }

  /** From every reachable state these steps alone lead to rest, unless one of them
      fails the connection. There every wake that was owed has been given: nobody is
      still queued who could take a single octet. */
  lemma {:induction false} OwedWakesArrive(st: State) returns (acts: seq<Action>)
    requires Reachable(st)
    ensures SettlingRun(st, acts) && Reachable(Then(st, acts))
    ensures var end := Then(st, acts);
            end.failed || (AtRest(end) && forall e :: e in end.queue ==> TakeAmount(Win(end, e.stream), end.conn, 1).None?)
    decreases Rank(st), 1
  {
    if st.failed {
      acts := [];
    } else if AtRest(st) {
      acts := [];
      NobodySleepsOnCredit(st);
    } else {
      ReachableInv(st);
      var a := SomebodySettles(st);
      ReachableNext(st, a);
      SettlingLowersRank(st, a);
      var rest := FinishAfter(st, a);
      acts := [a] + rest;
      assert acts[1..] == rest;
    }
  }

  lemma {:induction false} FinishAfter(st: State, a: Action) returns (rest: seq<Action>)
    requires Reachable(Step(st, a)) && (Step(st, a).failed || Rank(Step(st, a)) < Rank(st))
    ensures SettlingRun(Step(st, a), rest) && Reachable(Then(Step(st, a), rest))
    ensures var end := Then(Step(st, a), rest);
            end.failed || (AtRest(end) && forall e :: e in end.queue ==> TakeAmount(Win(end, e.stream), end.conn, 1).None?)
    decreases Rank(st), 0
  {
    if Step(st, a).failed {
      rest := [];
    } else {
      rest := OwedWakesArrive(Step(st, a));
    }
  }
}
