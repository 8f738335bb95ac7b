/** The state word of a stream: five facts in one word, read with one load and
    advanced with one compare-and-swap. The second half runs the CAS loop of any
    number of actors on one word, step by step. */
module StreamState {
  /** The five facts, one per bit of the source's word. */
  datatype Word = Word(recvdFields: bool, remoteEnded: bool, sentFields: bool, localEnded: bool, wasReset: bool)

  const OPEN := Word(false, false, false, false, false)
  const RECV_ENDED := OPEN.(remoteEnded := true)
  const SENT_FIELDS := OPEN.(sentFields := true)
  const SENT_ENDED := OPEN.(localEnded := true)
  const RESET := OPEN.(wasReset := true)
  const CLIENT_RESET := RESET.(remoteEnded := true)

  predicate Terminal(w: Word) { w.wasReset || (w.remoteEnded && w.localEnded) }

  predicate Writable(w: Word) { !w.wasReset && !w.localEnded }

  predicate Has(w: Word, bits: Word) {
    && (bits.recvdFields ==> w.recvdFields) && (bits.remoteEnded ==> w.remoteEnded)
    && (bits.sentFields ==> w.sentFields) && (bits.localEnded ==> w.localEnded) && (bits.wasReset ==> w.wasReset)
  }

  /** What one advance leaves behind: no fact is ever lost, so a closed stream
      stays closed and an unwritable one unwritable. */
  function Advanced(w: Word, delta: Word): (r: Word)
    ensures Has(r, delta) && Has(r, w)
    ensures Has(w, delta) ==> r == w
    ensures Terminal(w) ==> Terminal(r)
    ensures Writable(r) ==> Writable(w)
  {
    Word(w.recvdFields || delta.recvdFields, w.remoteEnded || delta.remoteEnded, w.sentFields || delta.sentFields,
         w.localEnded || delta.localEnded, w.wasReset || delta.wasReset)
  }

  // ---------------------------------------------------------------- bit packing

  function Bit(b: bool, mask: bv8): bv8 { if b then mask else 0 }

  /** The source's uint32, of which it uses five bits. */
  function Pack(w: Word): bv8 {
    Bit(w.recvdFields, 1) | Bit(w.remoteEnded, 2) | Bit(w.sentFields, 4) | Bit(w.localEnded, 8) | Bit(w.wasReset, 16)
  }

  /** The source's mask tests ask what the predicates say. */
  lemma MaskMeaning(w: Word)
    ensures Pack(w) & 2 != 0 <==> w.remoteEnded
    ensures Pack(w) & 8 != 0 <==> w.localEnded
    ensures Pack(w) & 16 != 0 <==> w.wasReset
    ensures Pack(w) & 16 != 0 || Pack(w) & (2 | 8) == 2 | 8 <==> Terminal(w)
    ensures Pack(w) & (16 | 8) == 0 <==> Writable(w)
  {
  }

  /** One OR on a packed word is one Advanced, and the early return of the loop
      tests Has. */
  lemma PackIsFaithful(w: Word, delta: Word)
    ensures Pack(Advanced(w, delta)) == Pack(w) | Pack(delta)
    ensures Pack(w) & Pack(delta) == Pack(delta) <==> Has(w, delta)
    ensures Pack(w) == Pack(delta) <==> w == delta
  {
  }

  // ---------------------------------------------------------------- the CAS loop

  /** One goroutine inside advance(delta). */
  datatype Phase = Before | Loaded(seen: Word) | Returned(before: Word)
  datatype Actor = Actor(delta: Word, phase: Phase)

  /** log: the advances that took effect, in order, as (actor, word before). */
  datatype Race = Race(word: Word, actors: seq<Actor>, log: seq<(nat, Word)>)

  datatype Move = Load(i: nat) | Cas(i: nat)

  function Go(r: Race, i: nat, phase: Phase): Race
    requires i < |r.actors|
  {
    r.(actors := r.actors[i := r.actors[i].(phase := phase)])
  }

  /** A load that finds every bit set returns at once; a failed CAS starts over. */
  function Step(r: Race, m: Move): Race {
    match m
    case Load(i) =>
      if i >= |r.actors| || !r.actors[i].phase.Before? then r
      else if Has(r.word, r.actors[i].delta) then Go(r, i, Returned(r.word)).(log := r.log + [(i, r.word)])
      else Go(r, i, Loaded(r.word))
    case Cas(i) =>
      if i >= |r.actors| || !r.actors[i].phase.Loaded? then r
      else if r.actors[i].phase.seen == r.word then
        Go(r, i, Returned(r.word)).(word := Advanced(r.word, r.actors[i].delta), log := r.log + [(i, r.word)])
      else Go(r, i, Before)
  }

  function Exec(start: Word, deltas: seq<Word>, moves: seq<Move>): Race {
    if moves == [] then Race(start, seq(|deltas|, i requires 0 <= i < |deltas| => Actor(deltas[i], Before)), [])
    else Step(Exec(start, deltas, moves[..|moves| - 1]), moves[|moves| - 1])
  }

  /** The word after the logged advances, applied one after another. */
  function Replay(start: Word, deltas: seq<Word>, log: seq<(nat, Word)>): Word {
    if log == [] then start
    else
      var e := log[|log| - 1];
      var w := Replay(start, deltas, log[..|log| - 1]);
      if e.0 < |deltas| then Advanced(w, deltas[e.0]) else w
  }

  /** The log is a sequential history: each entry starts from the word its
      predecessors leave, and each actor is in it at most once. */
  ghost predicate History(start: Word, deltas: seq<Word>, log: seq<(nat, Word)>) {
    && (forall k :: 0 <= k < |log| ==> log[k].0 < |deltas| && log[k].1 == Replay(start, deltas, log[..k]))
    && (forall j, k :: 0 <= j < k < |log| ==> log[j].0 != log[k].0)
  }

  ghost predicate Logged(log: seq<(nat, Word)>, i: nat) {
    exists k :: 0 <= k < |log| && log[k].0 == i
  }

  /** The actors that have returned are those in the log, with its values. */
  ghost predicate Agrees(deltas: seq<Word>, actors: seq<Actor>, log: seq<(nat, Word)>) {
    && |actors| == |deltas| && (forall i :: 0 <= i < |deltas| ==> actors[i].delta == deltas[i])
    && (forall k :: 0 <= k < |log| ==> log[k].0 < |actors| && actors[log[k].0].phase == Returned(log[k].1))
    && (forall i :: 0 <= i < |deltas| && actors[i].phase.Returned? ==> Logged(log, i))
  }

  ghost predicate Linear(start: Word, deltas: seq<Word>, r: Race) {
    && History(start, deltas, r.log) && Agrees(deltas, r.actors, r.log)
    && r.word == Replay(start, deltas, r.log)
  }

  lemma SnocHistory(start: Word, deltas: seq<Word>, log: seq<(nat, Word)>, i: nat)
    requires History(start, deltas, log) && i < |deltas| && !Logged(log, i)
    ensures var w := Replay(start, deltas, log);
      History(start, deltas, log + [(i, w)]) && Replay(start, deltas, log + [(i, w)]) == Advanced(w, deltas[i])
  {
    var log' := log + [(i, Replay(start, deltas, log))];
    assert log'[..|log|] == log;
    forall k | 0 <= k < |log'| ensures log'[k].1 == Replay(start, deltas, log'[..k]) {
      assert k < |log| ==> log'[..k] == log[..k];
    }
  }

  lemma SnocAgrees(deltas: seq<Word>, actors: seq<Actor>, log: seq<(nat, Word)>, i: nat, w: Word)
    requires Agrees(deltas, actors, log) && i < |deltas| && !actors[i].phase.Returned?
    ensures !Logged(log, i)
    ensures Agrees(deltas, actors[i := actors[i].(phase := Returned(w))], log + [(i, w)])
  {
    var log' := log + [(i, w)];
    forall j | 0 <= j < |deltas| && (j == i || actors[j].phase.Returned?) ensures Logged(log', j) {
      if j == i {
        assert log'[|log|].0 == i;
      } else {
        assert Logged(log, j);
        var k :| 0 <= k < |log| && log[k].0 == j;
        assert log'[k].0 == j;
      }
    }
  }

  lemma MoveAgrees(deltas: seq<Word>, actors: seq<Actor>, log: seq<(nat, Word)>, i: nat, phase: Phase)
    requires Agrees(deltas, actors, log) && i < |deltas| && !actors[i].phase.Returned? && !phase.Returned?
    ensures Agrees(deltas, actors[i := actors[i].(phase := phase)], log)
  {
  }

  lemma StepKeepsLinear(start: Word, deltas: seq<Word>, r: Race, m: Move)
    requires Linear(start, deltas, r)
    ensures Linear(start, deltas, Step(r, m))
  {
    var i := m.i;
    if i < |r.actors| {
      if m.Load? && r.actors[i].phase.Before? {
        if Has(r.word, deltas[i]) {
          Commit(start, deltas, r, i);
        } else {
          MoveAgrees(deltas, r.actors, r.log, i, Loaded(r.word));
        }
      } else if m.Cas? && r.actors[i].phase.Loaded? {
        if r.actors[i].phase.seen == r.word {
          Commit(start, deltas, r, i);
        } else {
          MoveAgrees(deltas, r.actors, r.log, i, Before);
        }
      }
    }
  }

  lemma Commit(start: Word, deltas: seq<Word>, r: Race, i: nat)
    requires Linear(start, deltas, r) && i < |deltas| && !r.actors[i].phase.Returned?
    ensures Linear(start, deltas, Go(r, i, Returned(r.word)).(word := Advanced(r.word, deltas[i]), log := r.log + [(i, r.word)]))
  {
    SnocAgrees(deltas, r.actors, r.log, i, r.word);
    SnocHistory(start, deltas, r.log, i);
  }

  /** Every interleaving of CAS loops is a sequential history of advances. */
  lemma {:induction false} AdvanceIsAtomic(start: Word, deltas: seq<Word>, moves: seq<Move>)
    ensures Linear(start, deltas, Exec(start, deltas, moves))
  {
    if moves != [] {
      AdvanceIsAtomic(start, deltas, moves[..|moves| - 1]);
      StepKeepsLinear(start, deltas, Exec(start, deltas, moves[..|moves| - 1]), moves[|moves| - 1]);
    }
  }

  /** One that nobody interferes with takes effect at once, and returns the word as it was;
      it returns without a write exactly if it has nothing to add. */
  lemma AdvanceAlone(r: Race, i: nat)
    requires i < |r.actors| && r.actors[i].phase.Before?
    ensures var done := Step(Step(r, Load(i)), Cas(i));
      && done.actors[i].phase == Returned(r.word) && done.word == Advanced(r.word, r.actors[i].delta)
      && (Step(r, Load(i)).actors[i].phase.Returned? <==> Has(r.word, r.actors[i].delta))
  {
  }

  // ---------------------------------------------------------------- who closes

  /** A bit is in the replayed word exactly when it was there at the start or an
      earlier advance set it. */
  lemma {:induction false} BitFromWhom(start: Word, deltas: seq<Word>, log: seq<(nat, Word)>, owner: nat)
    requires owner < |deltas| && forall k :: 0 <= k < |log| ==> log[k].0 < |deltas|
    ensures (!start.remoteEnded && deltas[owner].remoteEnded && OnlyRemote(deltas, owner)) ==>
      (Replay(start, deltas, log).remoteEnded <==> Logged(log, owner))
    ensures (!start.localEnded && deltas[owner].localEnded && OnlyLocal(deltas, owner)) ==>
      (Replay(start, deltas, log).localEnded <==> Logged(log, owner))
  {
    if log != [] {
      var rest, e := log[..|log| - 1], log[|log| - 1];
      BitFromWhom(start, deltas, rest, owner);
      assert Logged(log, owner) <==> Logged(rest, owner) || e.0 == owner by {
        if k :| 0 <= k < |rest| && rest[k].0 == owner {
          assert log[k].0 == owner;
        }
      }
    }
  }

  ghost predicate OnlyRemote(deltas: seq<Word>, i: nat) {
    forall j :: 0 <= j < |deltas| && j != i ==> !deltas[j].remoteEnded
  }

  ghost predicate OnlyLocal(deltas: seq<Word>, i: nat) {
    forall j :: 0 <= j < |deltas| && j != i ==> !deltas[j].localEnded
  }

  /** markRemoteEnd by actor a racing markLocalEnd by actor b, in the company of
      any other advances: exactly one of the two reports full closure. */
  lemma ExactlyOneCloses(start: Word, deltas: seq<Word>, moves: seq<Move>, a: nat, b: nat)
    requires a < |deltas| && b < |deltas| && a != b
    requires deltas[a].remoteEnded && OnlyRemote(deltas, a) && !start.remoteEnded
    requires deltas[b].localEnded && OnlyLocal(deltas, b) && !start.localEnded
    ensures var r := Exec(start, deltas, moves);
      && |r.actors| == |deltas|
      && (r.actors[a].phase.Returned? && r.actors[b].phase.Returned? ==>
            (r.actors[a].phase.before.localEnded <==> !r.actors[b].phase.before.remoteEnded))
  {
    AdvanceIsAtomic(start, deltas, moves);
    OneCloses(start, deltas, Exec(start, deltas, moves), a, b);
  }

  lemma OneCloses(start: Word, deltas: seq<Word>, r: Race, a: nat, b: nat)
    requires Linear(start, deltas, r) && a < |deltas| && b < |deltas| && a != b
    requires deltas[a].remoteEnded && OnlyRemote(deltas, a) && !start.remoteEnded
    requires deltas[b].localEnded && OnlyLocal(deltas, b) && !start.localEnded
    ensures r.actors[a].phase.Returned? && r.actors[b].phase.Returned? ==>
      (r.actors[a].phase.before.localEnded <==> !r.actors[b].phase.before.remoteEnded)
  {
    if r.actors[a].phase.Returned? && r.actors[b].phase.Returned? {
      var j: nat :| j < |r.log| && r.log[j].0 == a;
      var k: nat :| k < |r.log| && r.log[k].0 == b;
      assert r.actors[r.log[j].0].phase == Returned(r.log[j].1);
      assert r.actors[r.log[k].0].phase == Returned(r.log[k].1);
      LaterSeesEarlier(start, deltas, r.log, j, k);
    }
  }

  lemma LaterSeesEarlier(start: Word, deltas: seq<Word>, log: seq<(nat, Word)>, j: nat, k: nat)
    requires History(start, deltas, log) && j < |log| && k < |log|
    requires var a := log[j].0; deltas[a].remoteEnded && OnlyRemote(deltas, a) && !start.remoteEnded
    requires var b := log[k].0; deltas[b].localEnded && OnlyLocal(deltas, b) && !start.localEnded
    ensures log[j].1.localEnded <==> k < j
    ensures log[k].1.remoteEnded <==> j < k
  {
    LoggedBefore(log, j, k);
    BitFromWhom(start, deltas, log[..j], log[k].0);
    LoggedBefore(log, k, j);
    BitFromWhom(start, deltas, log[..k], log[j].0);
  }

  lemma LoggedBefore(log: seq<(nat, Word)>, j: nat, k: nat)
    requires j < |log| && k < |log|
    requires forall m, n :: 0 <= m < n < |log| ==> log[m].0 != log[n].0
    ensures Logged(log[..j], log[k].0) <==> k < j
  {
    if k < j {
      assert log[..j][k].0 == log[k].0;
    }
  }
}
