/** What can become of a stream whose header block is still open. */
module OpenBlocks {
  import opened Windows
  import opened Inbound

  /** The input takes the stream out of the table: its release is due and is carried out,
      or the upgrade is refused in its place. */
  predicate Releases(c: Conn, x: Input, id: StreamId) {
    && Live(c, id)
    && (|| (x.AppRelease? && x.id == id && (c.streams[id].reset || (c.streams[id].ended && c.streams[id].localEnded)))
        || (x.Seed? && id == 1 && !x.admission.Admitted?))
  }

  /** The upgrade puts a stream in its place. */
  predicate Restores(x: Input, id: StreamId) { x.Seed? && id == 1 && x.admission.Admitted? }

  predicate Disturbs(x: Input, id: StreamId) { x.HeadersFrame? || Restores(x, id) }

  /** Input k takes the stream out, and it is not put back. */
  predicate ReleasedAt(cfg: Config, run: seq<Input>, k: nat, id: StreamId)
    requires k < |run|
  {
    Releases(Exec(cfg, run[..k]).c, run[k], id) && forall j :: k < j < |run| ==> !Disturbs(run[j], id)
  }

  /** Since the last HEADERS frame the stream has been taken out, and not put back. */
  ghost predicate ReleasedSince(cfg: Config, run: seq<Input>, id: StreamId) {
    exists k: nat :: k < |run| && ReleasedAt(cfg, run, k, id)
  }

  lemma ReleasedEarlier(cfg: Config, run: seq<Input>, x: Input, k: nat, id: StreamId)
    requires k < |run|
    ensures ReleasedAt(cfg, run + [x], k, id) <==> ReleasedAt(cfg, run, k, id) && !Disturbs(x, id)
  {
    var more := run + [x];
    assert more[..k] == run[..k] && more[k] == run[k] && more[|run|] == x;
    assert forall j :: k < j < |run| ==> more[j] == run[j];
  }

  lemma ReleasedNow(cfg: Config, run: seq<Input>, x: Input, id: StreamId)
    ensures ReleasedAt(cfg, run + [x], |run|, id) <==> Releases(Exec(cfg, run).c, x, id)
  {
    var more := run + [x];
    assert more[..|run|] == run && more[|run|] == x;
  }

  lemma ReleasedSnoc(cfg: Config, run: seq<Input>, x: Input, id: StreamId)
    ensures ReleasedSince(cfg, run + [x], id) <==>
              Releases(Exec(cfg, run).c, x, id) || (ReleasedSince(cfg, run, id) && !Disturbs(x, id))
  {
    ReleasedNow(cfg, run, x, id);
    forall k: nat | k < |run|
      ensures ReleasedAt(cfg, run + [x], k, id) <==> ReleasedAt(cfg, run, k, id) && !Disturbs(x, id)
    {
      ReleasedEarlier(cfg, run, x, k, id);
    }
    if ReleasedSince(cfg, run + [x], id) {
      var k: nat :| k < |run + [x]| && ReleasedAt(cfg, run + [x], k, id);
      assert k < |run| || k == |run|;
    }
  }

  predicate Waiting(c: Conn, id: StreamId) { c.pending.Some? && c.pending.value.id == id && !c.pending.value.discard }

  /** While a block is open the reader lets nothing but its CONTINUATION through, so only
      other goroutines and the upgrade can take its stream away. */
  lemma WaitingStep(cfg: Config, c: Conn, x: Input, id: StreamId)
    requires Receive(cfg, c, x).err.None? && Waiting(Receive(cfg, c, x).c, id)
    ensures x.HeadersFrame? ==> Live(Receive(cfg, c, x).c, id)
    ensures !x.HeadersFrame? ==> Waiting(c, id)
    ensures !x.HeadersFrame? ==> (Live(Receive(cfg, c, x).c, id) <==> (Live(c, id) && !Releases(c, x, id)) || Restores(x, id))
  {
    if x.HeadersFrame? {
      HeadersOpen(cfg, c, x, id);
    } else if x.ContinuationFrame? {
      ContinuationWaits(cfg, c, x, id);
    }
  }

  lemma HeadersOpen(cfg: Config, c: Conn, x: Input, id: StreamId)
    requires x.HeadersFrame? && Receive(cfg, c, x).err.None? && Waiting(Receive(cfg, c, x).c, id)
    ensures Live(Receive(cfg, c, x).c, id)
  {
    HeadersFeed(cfg, c, x);
  }

  lemma ContinuationWaits(cfg: Config, c: Conn, x: Input, id: StreamId)
    requires x.ContinuationFrame? && Receive(cfg, c, x).err.None? && Waiting(Receive(cfg, c, x).c, id)
    ensures Waiting(c, id) && Receive(cfg, c, x).c.streams == c.streams
  {
    ContinuationFeeds(cfg, c, x);
  }

  /** Over every run: the stream of an open block that will be delivered is gone if and
      only if since its HEADERS it was taken out of the table and not put back. */
  lemma {:induction false} VanishedIff(cfg: Config, run: seq<Input>, id: StreamId)
    requires Exec(cfg, run).err.None? && Waiting(Exec(cfg, run).c, id)
    ensures !Live(Exec(cfg, run).c, id) <==> ReleasedSince(cfg, run, id)
  {
    if run != [] {
      var init, x := run[..|run| - 1], run[|run| - 1];
      assert run == init + [x];
      var c := Exec(cfg, init).c;
      WaitingStep(cfg, c, x, id);
      ReleasedSnoc(cfg, init, x, id);
      if !x.HeadersFrame? {
        VanishedIff(cfg, init, id);
      }
    }
  }

  /** The application may take a stream from the accept queue and close it between
      HEADERS and CONTINUATION, so the block of a stream that has vanished does reach
      OnContinuation and has to be decoded there. */
  lemma StreamMayVanish(cfg: Config)
    ensures exists run :: Exec(cfg, run).err.None? && Waiting(Exec(cfg, run).c, 1) && !Live(Exec(cfg, run).c, 1)
  {
    var open, reset, release := HeadersFrame(1, [], true, false, true), AppReset(1), AppRelease(1);
    var run := [open, reset, release];
    assert run[..2] == [open, reset] && [open, reset][..1] == [open] && [open][..0] == [];
    assert Exec(cfg, []).c == START;
    assert Exec(cfg, [open]).c.pending == Some(Pending(1, [], true, false, false));
    assert Exec(cfg, [open, reset]).c.streams[1].reset;
    assert !Live(Exec(cfg, run).c, 1);
    assert Waiting(Exec(cfg, run).c, 1);
  }
}
