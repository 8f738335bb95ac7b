/** What the GOAWAY frames of a connection announce, and how many there are. */
module GoAway {
  import opened Windows
  import opened StreamTable

  /** Successive last-stream-ids never rise and are 0 or odd. */
  lemma GoAwayNeverRises(ops: seq<Op>, limit: int)
    requires WireIds(ops) && FewPushes(ops)
    ensures var s := Exec(ops, limit).sent;
      && (forall i, j :: 0 <= i < j < |s| ==> s[j] <= s[i])
      && (forall i :: 0 <= i < |s| ==> s[i] == 0 || s[i] % 2 == 1)
  {
    RunKeepsInv(ops, limit);
  }

  // ---------------------------------------------------------------- how many

  predicate SomeAsk(ops: seq<Op>) { exists i :: 0 <= i < |ops| && ops[i].Ask? }

  predicate SomeClose(ops: seq<Op>) { exists i :: 0 <= i < |ops| && ops[i].CloseBegin? }

  /** Somebody asked and told before Close began. */
  predicate Told(ops: seq<Op>) {
    exists i, j :: 0 <= i < j < |ops| && ops[i].Ask? && ops[j].Tell? && !SomeClose(ops[..j])
  }

  /** Close began and told. */
  predicate CloseTold(ops: seq<Op>) { exists i, j :: 0 <= i < j < |ops| && ops[i].CloseBegin? && ops[j].CloseTell? }

  function One(b: bool): nat { if b then 1 else 0 }

  lemma AskSnoc(ops: seq<Op>, x: Op)
    ensures SomeAsk(ops + [x]) <==> SomeAsk(ops) || x.Ask?
  {
    var more := ops + [x];
    assert forall i :: 0 <= i < |ops| ==> more[i] == ops[i];
    assert more[|ops|] == x;
  }

  lemma CloseSnoc(ops: seq<Op>, x: Op)
    ensures SomeClose(ops + [x]) <==> SomeClose(ops) || x.CloseBegin?
  {
    var more := ops + [x];
    assert forall i :: 0 <= i < |ops| ==> more[i] == ops[i];
    assert more[|ops|] == x;
  }

  lemma ToldSnoc(ops: seq<Op>, x: Op)
    ensures Told(ops + [x]) <==> Told(ops) || (x.Tell? && SomeAsk(ops) && !SomeClose(ops))
  {
    var more := ops + [x];
    forall j | 0 <= j <= |ops|
      ensures more[..j] == ops[..j]
    {
    }
    assert ops[..|ops|] == ops && more[|ops|] == x;
    if Told(ops) {
      var i, j :| 0 <= i < j < |ops| && ops[i].Ask? && ops[j].Tell? && !SomeClose(ops[..j]);
      assert more[i] == ops[i] && more[j] == ops[j];
    }
    if x.Tell? && SomeAsk(ops) && !SomeClose(ops) {
      var i :| 0 <= i < |ops| && ops[i].Ask?;
      assert more[i] == ops[i];
    }
    if Told(more) {
      var i, j :| 0 <= i < j < |more| && more[i].Ask? && more[j].Tell? && !SomeClose(more[..j]);
      assert more[i] == ops[i];
      if j < |ops| {
        assert more[j] == ops[j];
      }
    }
  }

  lemma CloseToldSnoc(ops: seq<Op>, x: Op)
    ensures CloseTold(ops + [x]) <==> CloseTold(ops) || (x.CloseTell? && SomeClose(ops))
  {
    var more := ops + [x];
    assert forall i :: 0 <= i < |ops| ==> more[i] == ops[i];
    assert more[|ops|] == x;
    if CloseTold(ops) {
      var i, j :| 0 <= i < j < |ops| && ops[i].CloseBegin? && ops[j].CloseTell?;
      assert more[i].CloseBegin? && more[j].CloseTell?;
    }
    if x.CloseTell? && SomeClose(ops) {
      var i :| 0 <= i < |ops| && ops[i].CloseBegin?;
      assert more[i].CloseBegin? && more[|ops|].CloseTell?;
    }
  }

  /** The flags of the connection, in terms of what was done to it. */
  predicate Flags(c: Conn, asked: bool, told: bool, closed: bool, closeTold: bool) {
    && c.closed == closed && c.closing == (closed && !closeTold) && (closeTold ==> closed)
    && (!closed ==> c.requested == asked && c.asking.Some? == (asked && !told))
    && (closeTold ==> c.requested) && (asked ==> c.requested) && |c.sent| == One(told) + One(closeTold)
  }

  lemma FlagsStep(c: Conn, x: Op, limit: int, asked: bool, told: bool, closed: bool, closeTold: bool)
    requires Flags(c, asked, told, closed, closeTold) && (told ==> asked)
    ensures Flags(Step(c, x, limit), asked || x.Ask?, told || (x.Tell? && asked && !closed),
                  closed || x.CloseBegin?, closeTold || (x.CloseTell? && closed))
  {
  }

  lemma {:induction false} RunFlags(ops: seq<Op>, limit: int)
    ensures Flags(Exec(ops, limit), SomeAsk(ops), Told(ops), SomeClose(ops), CloseTold(ops))
    ensures Told(ops) ==> SomeAsk(ops)
  {
    if ops != [] {
      var before, x := ops[..|ops| - 1], ops[|ops| - 1];
      assert ops == before + [x];
      RunFlags(before, limit);
      FlagsStep(Exec(before, limit), x, limit, SomeAsk(before), Told(before), SomeClose(before), CloseTold(before));
      AskSnoc(before, x);
      CloseSnoc(before, x);
      ToldSnoc(before, x);
      CloseToldSnoc(before, x);
    }
  }

  /** How many GOAWAY frames a run sends: one if somebody asked and told before Close
      began, and one if Close told. Hence two exactly if both happened. */
  lemma GoAwayCount(ops: seq<Op>, limit: int)
    ensures |Exec(ops, limit).sent| == One(Told(ops)) + One(CloseTold(ops))
    ensures |Exec(ops, limit).sent| == 2 <==> Told(ops) && CloseTold(ops)
  {
    RunFlags(ops, limit);
  }

  lemma ExecSnoc(ops: seq<Op>, x: Op, limit: int)
    ensures Exec(ops + [x], limit) == Step(Exec(ops, limit), x, limit)
  {
    assert (ops + [x])[..|ops|] == ops;
  }

  /** A graceful announcement followed by Close. */
  lemma GoAwayMayBeSentTwice()
    ensures Exec([Ask(Graceful), Tell, CloseBegin, CloseTell], 10).sent == [MAX_STREAM_ID, 0]
  {
    var a, b, c := [Ask(Graceful)], [Ask(Graceful), Tell], [Ask(Graceful), Tell, CloseBegin];
    ExecSnoc([], Ask(Graceful), 10);
    ExecSnoc(a, Tell, 10);
    ExecSnoc(b, CloseBegin, 10);
    ExecSnoc(c, CloseTell, 10);
    assert [] + [Ask(Graceful)] == a && a + [Tell] == b && b + [CloseBegin] == c;
    assert c + [CloseTell] == [Ask(Graceful), Tell, CloseBegin, CloseTell];
  }

  // ---------------------------------------------------------------- what they say

  /** Each frame announces the highest identifier the client has used when it is written,
      2^31-1 for the graceful warning, unless an earlier one announced less. */
  lemma AnnouncedIdentifier(ops: seq<Op>, x: Op, limit: int)
    requires WireIds(ops) && FewPushes(ops)
    ensures var c, after := Exec(ops, limit), Step(Exec(ops, limit), x, limit);
      var now := if x.Tell? && c.asking == Some(Graceful) then MAX_STREAM_ID else c.ids.maxClient;
      after.sent == c.sent || after.sent == c.sent + [Min(Least(c.sent), now)]
  {
    RunKeepsInv(ops, limit);
  }

  /** A HEADERS frame uses up an identifier above the one last announced. */
  predicate Late(c: Conn, x: Op) {
    x.Headers? && !c.failed && x.id !in c.ids.live && ValidClientId(c.ids, x.id) && c.sent != [] && x.id > Least(c.sent)
  }

  ghost predicate SomeLate(ops: seq<Op>, limit: int) {
    exists k :: 0 <= k < |ops| && Late(Exec(ops[..k], limit), ops[k])
  }

  lemma LateSnoc(ops: seq<Op>, x: Op, limit: int)
    ensures SomeLate(ops + [x], limit) <==> SomeLate(ops, limit) || Late(Exec(ops, limit), x)
  {
    var more := ops + [x];
    forall k | 0 <= k <= |ops|
      ensures more[..k] == ops[..k]
    {
    }
    assert ops[..|ops|] == ops && more[|ops|] == x;
    if SomeLate(ops, limit) {
      var k :| 0 <= k < |ops| && Late(Exec(ops[..k], limit), ops[k]);
      assert more[k] == ops[k];
    }
    if SomeLate(more, limit) {
      var k :| 0 <= k < |more| && Late(Exec(more[..k], limit), more[k]);
      assert k < |ops| ==> more[k] == ops[k];
    }
  }

  predicate Within(c: Conn) { c.ids.maxClient <= Least(c.sent) }

  lemma WithinStep(c: Conn, x: Op, limit: int, pushes: nat)
    requires Inv(c, limit, pushes) && (x.Headers? ==> x.id <= MAX_STREAM_ID)
    ensures Within(Step(c, x, limit)) <==> Within(c) && !Late(c, x)
  {
  }

  /** Section 6.8 of RFC 9113 lets a client take every stream above the announced
      identifier as not processed. That is so if and only if no HEADERS frame uses up
      such an identifier afterwards; nothing on the way to admission checks it. */
  lemma {:induction false} AnnouncedHoldsIff(ops: seq<Op>, limit: int)
    requires WireIds(ops) && FewPushes(ops)
    ensures Exec(ops, limit).ids.maxClient <= Least(Exec(ops, limit).sent) <==> !SomeLate(ops, limit)
  {
    if ops != [] {
      var n := |ops| - 1;
      assert ops == ops[..n] + [ops[n]];
      PrefixRun(ops, n);
      AnnouncedHoldsIff(ops[..n], limit);
      RunKeepsInv(ops[..n], limit);
      WithinStep(Exec(ops[..n], limit), ops[n], limit, Pushes(ops[..n]));
      LateSnoc(ops[..n], ops[n], limit);
    }
  }

  /** A stream opened after GOAWAY announced 0. */
  lemma LateStreamMayBeServed()
    ensures var c := Exec([Ask(Plain), Tell, Headers(1)], 10); c.sent == [0] && c.ids.live == {1}
  {
    var a, b := [Ask(Plain)], [Ask(Plain), Tell];
    ExecSnoc([], Ask(Plain), 10);
    ExecSnoc(a, Tell, 10);
    ExecSnoc(b, Headers(1), 10);
    assert [] + [Ask(Plain)] == a && a + [Tell] == b && b + [Headers(1)] == [Ask(Plain), Tell, Headers(1)];
  }
}
