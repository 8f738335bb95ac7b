/** The rapid-reset budget over whole runs. */
module ResetBudget {
  import opened Windows
  import opened Inbound

  /** A reset that cost the client nothing: its request was still open, or the stream was
      gone already. */
  predicate Rapid(c: Conn, x: Input) {
    x.RstFrame? && if x.id % 2 == 0 then !x.livePush else !Live(c, x.id) || !c.streams[x.id].ended
  }

  function Rapids(cfg: Config, run: seq<Input>): nat {
    if run == [] then 0
    else Rapids(cfg, run[..|run| - 1]) + if Rapid(Exec(cfg, run[..|run| - 1]).c, run[|run| - 1]) then 1 else 0
  }

  lemma EmitChargesNothing(cfg: Config, c: Conn, id: StreamId, block: Block, end: bool, trailer: bool)
    requires id in c.streams
    ensures Emit(cfg, c, id, block, end, trailer).c.rapid == c.rapid
  {
  }

  lemma FramesChargeNothing(cfg: Config, c: Conn, x: Input)
    requires !x.RstFrame?
    ensures Receive(cfg, c, x).c.rapid == c.rapid
  {
    if x.HeadersFrame? {
      var trailer := Live(c, x.id) && c.streams[x.id].recvd;
      var started := if Live(c, x.id) then c else Register(c, x.id, x.admitted);
      EmitChargesNothing(cfg, if trailer then started else RecordFields(started, x.id), x.id, x.frag, x.end, trailer);
    } else if x.ContinuationFrame? && c.pending.Some? && Live(c, x.id) {
      var p := c.pending.value;
      EmitChargesNothing(cfg, if p.trailer then c else RecordFields(c, x.id), x.id, p.buf + x.frag, p.end, p.trailer);
    }
  }

  lemma RstCharges(cfg: Config, c: Conn, x: Input)
    requires x.RstFrame? && cfg.resetBudget > 0 && Receive(cfg, c, x).err.None?
    ensures Receive(cfg, c, x).c.rapid == c.rapid + if Rapid(c, x) then 1 else 0
    ensures Rapid(c, x) ==> c.rapid < cfg.resetBudget
  {
  }

  /** Over every run that has not failed, the count is the number of rapid resets, and
      within the budget. */
  lemma {:induction false} RapidResetsCounted(cfg: Config, run: seq<Input>)
    requires Exec(cfg, run).err.None? && cfg.resetBudget > 0
    ensures Exec(cfg, run).c.rapid == Rapids(cfg, run) <= cfg.resetBudget
  {
    if run != [] {
      var init, x := run[..|run| - 1], run[|run| - 1];
      RapidResetsCounted(cfg, init);
      if x.RstFrame? {
        RstCharges(cfg, Exec(cfg, init).c, x);
      } else {
        FramesChargeNothing(cfg, Exec(cfg, init).c, x);
      }
    }
  }

  /** And the reset that exceeds it is the one that ends the connection. */
  lemma BudgetIsExact(cfg: Config, run: seq<Input>, x: Input)
    requires Exec(cfg, run).err.None? && cfg.resetBudget > 0 && Exec(cfg, run).c.pending.None? && Rapid(Exec(cfg, run).c, x)
    requires if x.id % 2 == 0 then !x.idlePush else x.id <= Exec(cfg, run).c.maxClient
    ensures Receive(cfg, Exec(cfg, run).c, x).err == if Rapids(cfg, run) == cfg.resetBudget then Some(EnhanceYourCalm) else None
  {
    RapidResetsCounted(cfg, run);
  }
}
