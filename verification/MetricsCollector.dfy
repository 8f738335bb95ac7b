/** The collector as the source updates it in place: maps whose entries come and go,
    stamps, and a published view. Every method is proved to do what its namesake in
    Metrics does. */
module MetricsCollector {
  import opened Metrics
  import opened MetricsRequests
  import opened MetricsRuns

  class Collector {
    const cfg: Config
    var live: seq<map<Label, Sid>>
    var views: seq<map<Label, Sid>>
    var entries: nat
    var lastSweep: int
    var series: seq<seq<Series>>

    function Value(): State
      reads this
    {
      State(live, views, entries, lastSweep, series)
    }

    predicate Ok()
      reads this
    {
      Inv(cfg, Value())
    }

    constructor (cfg: Config, now: int)
      ensures this.cfg == cfg && Ok() && Value() == Start(now)
    {
      this.cfg := cfg;
      live, views, entries, lastSweep, series := NO_MAPS, NO_MAPS, 0, now, [[], [], [], []];
    }

    method PublishViewsLocked(n: nat)
      requires n == Total(live)
      modifies this`views, this`entries
      ensures Value() == Publish(old(Value()))
    {
      views, entries := live, n;
    }

    method CountEntries() returns (n: nat)
      ensures n == Total(live)
    {
      n := 0;
      for i := 0 to |live|
        invariant n + Total(live[i..]) == Total(live)
      {
        n := n + |live[i]|;
        assert live[i..][1..] == live[i + 1..];
      }
    }

    method MaybePublishViewsLocked()
      modifies this`views, this`entries
      ensures Value() == MaybePublish(old(Value()))
    {
      var n := CountEntries();
      if n <= EAGER_ENTRIES || n >= 2 * entries {
        PublishViewsLocked(n);
      }
    }

    /** Deletes the idle entries of one map, in whatever order they come. */
    method SweepStore(s: Store, cutoff: int)
      requires s < |live| == |series| && (forall k :: k in live[s] ==> 0 <= live[s][k] < |series[s]|)
      modifies this`live
      ensures live == old(live)[s := Swept(old(live[s]), series[s], cutoff)]
    {
      ghost var m := live[s];
      var todo := live[s].Keys;
      while todo != {}
        invariant |live| == |old(live)| && todo <= live[s].Keys
        invariant forall t :: 0 <= t < |live| && t != s ==> live[t] == old(live[t])
        invariant forall k :: k in live[s] ==> k in m && live[s][k] == m[k]
        invariant forall k :: k in m ==> (k in live[s] <==> k in todo || series[s][m[k]].lastSeen >= cutoff)
        decreases todo
      {
        var k :| k in todo;
        todo := todo - {k};
        if series[s][live[s][k]].lastSeen < cutoff {
          live := live[s := live[s] - {k}];
        }
      }
      assert live[s] == Swept(m, series[s], cutoff);
    }

    /** One cutoff for all four maps. */
    method SweepLocked(now: int)
      requires Shape(Value())
      modifies this`live
      ensures live == SweptAll(old(live), series, now - cfg.ttl)
    {
      var cutoff := now - cfg.ttl;
      for i := 0 to STORES
        invariant |live| == STORES
        invariant forall t :: 0 <= t < STORES ==> live[t] == if t < i then Swept(old(live[t]), series[t], cutoff) else old(live[t])
      {
        SweepStore(i, cutoff);
      }
    }

    /** Sweeping republishes, so no view hands out a swept series. */
    method MaybeSweepLocked(now: int)
      requires Shape(Value())
      modifies this`live, this`views, this`entries, this`lastSweep
      ensures Value() == MaybeSweep(cfg, old(Value()), now)
    {
      if !(cfg.ttl > 0 && now - lastSweep >= cfg.ttl) {
        return;
      }
      lastSweep := now;
      SweepLocked(now);
      var n := CountEntries();
      PublishViewsLocked(n);
    }

    method TouchSeries(s: Store, sid: Sid, now: int)
      requires s < |series| && 0 <= sid < |series[s]|
      modifies this`series
      ensures Value() == Touch(cfg, old(Value()), s, sid, now)
    {
      if cfg.ttl > 0 {
        series := series[s := series[s][sid := series[s][sid].(lastSeen := now)]];
      }
    }

    method InsertSeries(s: Store, k: Label, now: int) returns (sid: Sid)
      requires s < |live| == |series|
      modifies this
      ensures Found(Value(), sid) == Insert(old(Value()), s, k, now)
    {
      sid := |series[s]|;
      series := series[s := series[s] + [Series(now, 0)]];
      live := live[s := live[s][k := sid]];
      MaybePublishViewsLocked();
    }

    /** The part under the write lock. */
    method InsertOrFold(s: Store, key: Label, now: int, ghost was: State) returns (sid: Sid)
      requires Ok() && s < STORES && was == Value() && key !in live[s]
      requires !(Folds(cfg, was, |live[s]|, now) && cfg.overflow in live[s])
      modifies this
      ensures Found(Value(), sid) == Locked(cfg, was, s, key, now)
    {
      SweepKeeps(cfg, was, now);
      MaybeSweepLocked(now);
      var k := if cfg.maxSeries > 0 && |live[s]| >= cfg.maxSeries then cfg.overflow else key;
      if k in live[s] {
        sid := live[s][k];
        series := series[s := series[s][sid := series[s][sid].(lastSeen := now)]];
      } else {
        sid := InsertSeries(s, k, now);
      }
    }

    method SeriesFor(s: Store, key: Label, now: int) returns (sid: Sid)
      requires Ok() && s < STORES
      modifies this
      ensures Found(Value(), sid) == Locked(cfg, old(Value()), s, key, now)
    {
      if key in live[s] {
        sid := live[s][key];
        TouchSeries(s, sid, now);
        return;
      }
      var due := cfg.ttl > 0 && now - lastSweep >= cfg.ttl;
      if cfg.maxSeries > 0 && |live[s]| >= cfg.maxSeries && !due && cfg.overflow in live[s] {
        sid := live[s][cfg.overflow];
        TouchSeries(s, sid, now);
        return;
      }
      sid := InsertOrFold(s, key, now, Value());
    }

    /** No lock for a label tracked in the view, nor for an untracked one of a full view. */
    method LookupSeries(view: map<Label, Sid>, s: Store, key: Label, now: int) returns (sid: Sid)
      requires Ok() && s < STORES && Belongs(Value(), view, s)
      modifies this
      ensures Found(Value(), sid) == Lookup(cfg, old(Value()), view, s, key, now)
    {
      if key in view {
        sid := view[key];
        TouchSeries(s, sid, now);
        return;
      }
      var due := cfg.ttl > 0 && now - lastSweep >= cfg.ttl;
      if cfg.maxSeries > 0 && |view| >= cfg.maxSeries && !due && cfg.overflow in view {
        sid := view[cfg.overflow];
        TouchSeries(s, sid, now);
        return;
      }
      sid := SeriesFor(s, key, now);
    }

    method Count(s: Store, sid: Sid, ghost f: Found)
      requires f == Found(Value(), sid) && s < |series| && 0 <= sid < |series[s]|
      modifies this`series
      ensures Value() == Hit(f.st, s, sid)
    {
      series := series[s := series[s][sid := series[s][sid].(hits := series[s][sid].hits + 1)]];
    }

    /** One lookup and its count. */
    method Record(view: map<Label, Sid>, it: Item, now: int, ghost was: State) returns (sid: Sid)
      requires Ok() && it.store < STORES && Belongs(Value(), view, it.store) && was == Value()
      modifies this
      ensures Found(Value(), sid) == Step(cfg, was, view, it, now)
    {
      LookupKeeps(cfg, was, view, it.store, it.key, now);
      sid := LookupSeries(view, it.store, it.key, now);
      Count(it.store, sid, Found(Value(), sid));
    }

    /** The next lookup of a request that loaded the views in st. */
    method RecordNext(view: map<Label, Sid>, it: Item, now: int, ghost st: State, ghost r: Request, ghost h: History)
      returns (ghost g: History)
      requires Inv(cfg, st) && WellFormed(r) && Served(cfg, st, r, h) && |h.sids| < |r.items|
      requires it == r.items[|h.sids|] && now == r.now && view == st.views[it.store] && Value() == h.states[|h.sids|]
      modifies this
      ensures Served(cfg, st, r, g) && |g.sids| == |h.sids| + 1 && Value() == g.states[|g.sids|]
    {
      ServedExtends(cfg, st, r, h, |h.sids|);
      ViewBelongs(st, it.store);
      StillBelongs(st, Value(), view, it.store);
      ghost var was := Value();
      var sid := Record(view, it, now, was);
      g := Append(h, Found(Value(), sid));
      ServedAppend(cfg, st, r, h, Found(Value(), sid));
    }

    /** What every request of the middleware counts, on the views it loaded. */
    method RecordThree(loaded: seq<map<Label, Sid>>, counterKey: Label, durationKey: Label, now: int, ghost st: State, ghost r: Request)
      returns (ghost h: History)
      requires Inv(cfg, st) && st == Value() && loaded == st.views && WellFormed(r) && |r.items| >= 3 && r.now == now
      requires r.items[..3] == [Item(COUNTERS, counterKey), Item(DURATIONS, durationKey), Item(HISTOGRAMS, durationKey)]
      modifies this
      ensures Served(cfg, st, r, h) && |h.sids| == 3 && Value() == h.states[3]
    {
      assert r.items[0] == r.items[..3][0] && r.items[1] == r.items[..3][1] && r.items[2] == r.items[..3][2];
      h := RecordNext(loaded[COUNTERS], Item(COUNTERS, counterKey), now, st, r, History([st], []));
      h := RecordNext(loaded[DURATIONS], Item(DURATIONS, durationKey), now, st, r, h);
      h := RecordNext(loaded[HISTOGRAMS], Item(HISTOGRAMS, durationKey), now, st, r, h);
    }

    /** The middleware: the views are loaded once, and every lookup asks what was loaded. */
    method RecordRequest(counterKey: Label, durationKey: Label, body: bool, now: int)
      requires Ok()
      modifies this
      ensures Ok() && Value() == Recorded(cfg, old(Value()), Middleware(counterKey, durationKey, body, now))
    {
      ghost var st, r := Value(), Middleware(counterKey, durationKey, body, now);
      var loaded := views;
      ghost var h := RecordThree(loaded, counterKey, durationKey, now, st, r);
      if body {
        h := RecordNext(loaded[BYTES], Item(BYTES, durationKey), now, st, r, h);
      }
      ServedIsServe(cfg, st, r, h, |r.items|);
    }

    /** A direct caller loads the views for its one lookup. */
    method ObserveDuration(durationKey: Label, now: int)
      requires Ok()
      modifies this
      ensures Ok() && Value() == Recorded(cfg, old(Value()), Observation(durationKey, now))
    {
      ghost var st, r := Value(), Observation(durationKey, now);
      ghost var h := RecordNext(views[HISTOGRAMS], Item(HISTOGRAMS, durationKey), now, st, r, History([st], []));
      ServedIsServe(cfg, st, r, h, 1);
    }
  }
}
