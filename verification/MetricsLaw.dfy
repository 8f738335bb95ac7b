/** What a request of the metrics middleware changes: which series it counts on, which it
    stamps, and which the sweep it may cause drops. */
module MetricsLaw {
  import opened Metrics
  import opened MetricsRequests
  import opened MetricsRuns

  // ---------------------------------------------------------------- what is dropped

  /** A series stays in its map, under its label. */
  predicate Stays(st: State, after: State, t: Store, k: Label)
    requires t < |st.live| == |after.live| && k in st.live[t]
  {
    k in after.live[t] && after.live[t][k] == st.live[t][k]
  }

  lemma SweepDropsIff(cfg: Config, st: State, now: int, t: Store, k: Label)
    requires Shape(st) && t < STORES && k in st.live[t]
    ensures |MaybeSweep(cfg, st, now).live| == STORES && MaybeSweep(cfg, st, now).series == st.series
    ensures !Stays(st, MaybeSweep(cfg, st, now), t, k) <==> SweepDue(cfg, st, now) && Idle(cfg, st, t, st.live[t][k], now)
  {
  }

  lemma InsertStays(st: State, w: State, s: Store, key: Label, now: int, t: Store, k: Label)
    requires Shape(st) && |w.live| == STORES && w.series == st.series && s < STORES && t < STORES && k in st.live[t] && key !in w.live[s]
    ensures |Insert(w, s, key, now).st.live| == STORES
    ensures Stays(st, Insert(w, s, key, now).st, t, k) <==> Stays(st, w, t, k)
  {
  }

  lemma LockedDropsIff(cfg: Config, st: State, s: Store, key: Label, now: int, t: Store, k: Label)
    requires Inv(cfg, st) && s < STORES && t < STORES && k in st.live[t]
    ensures |Locked(cfg, st, s, key, now).st.live| == STORES
    ensures !Stays(st, Locked(cfg, st, s, key, now).st, t, k)
        <==> SweepDue(cfg, st, now) && key !in st.live[s] && Idle(cfg, st, t, st.live[t][k], now)
  {
    if key !in st.live[s] && !(Folds(cfg, st, |st.live[s]|, now) && cfg.overflow in st.live[s]) {
      var w := MaybeSweep(cfg, st, now);
      SweepDropsIff(cfg, st, now, t, k);
      var own := if cfg.maxSeries > 0 && |w.live[s]| >= cfg.maxSeries then cfg.overflow else key;
      if own !in w.live[s] {
        InsertStays(st, w, s, own, now, t, k);
      }
    }
  }

  /** A lookup drops a series if and only if a sweep is due, the label is neither in the
      view nor in a live series, and the series was idle past the TTL. */
  lemma DropsIff(cfg: Config, st: State, view: map<Label, Sid>, it: Item, now: int, t: Store, k: Label)
    requires Inv(cfg, st) && it.store < STORES && Belongs(st, view, it.store) && t < STORES && k in st.live[t]
    ensures |Lookup(cfg, st, view, it.store, it.key, now).st.live| == STORES
    ensures !Stays(st, Lookup(cfg, st, view, it.store, it.key, now).st, t, k)
        <==> Sweeps(cfg, st, view, it, now) && Idle(cfg, st, t, st.live[t][k], now)
  {
    LockedDropsIff(cfg, st, it.store, it.key, now, t, k);
  }

  // ---------------------------------------------------------------- what is published

  /** Beyond 8192 entries a lookup replaces the views only if it sweeps, or if the maps have
      doubled since they were last published. */
  lemma RepublishedIf(cfg: Config, st: State, view: map<Label, Sid>, it: Item, now: int)
    requires Inv(cfg, st) && it.store < STORES && Belongs(st, view, it.store)
    ensures var after := Lookup(cfg, st, view, it.store, it.key, now).st;
      after.views != st.views ==> Sweeps(cfg, st, view, it, now) || Total(after.live) <= EAGER_ENTRIES || Total(after.live) >= 2 * st.entries
  {
  }

  // ---------------------------------------------------------------- what is stamped

  /** The series found is marked as seen now, where sweeping reads the mark; no other series
      is touched, and no count. */
  predicate Marks(cfg: Config, st: State, f: Found, s: Store, now: int) {
    && |f.st.series| == |st.series| && s < |f.st.series| && 0 <= f.sid < |f.st.series[s]|
    && (cfg.ttl > 0 ==> f.st.series[s][f.sid].lastSeen == now)
    && f.st.series[s][f.sid].hits == (if f.sid < |st.series[s]| then st.series[s][f.sid].hits else 0)
    && (forall t, i :: 0 <= t < |st.series| && 0 <= i < |st.series[t]| && !(t == s && i == f.sid) ==>
          i < |f.st.series[t]| && f.st.series[t][i] == st.series[t][i])
  }

  lemma StampMarks(cfg: Config, st: State, s: Store, sid: Sid, now: int)
    requires s < |st.series| && 0 <= sid < |st.series[s]|
    ensures Marks(cfg, st, Found(Stamp(st, s, sid, now), sid), s, now)
    ensures Marks(cfg, st, Found(Touch(cfg, st, s, sid, now), sid), s, now)
  {
  }

  lemma InsertMarks(cfg: Config, st: State, w: State, s: Store, k: Label, now: int)
    requires |w.live| == |st.series| && w.series == st.series && s < |st.series|
    ensures Marks(cfg, st, Insert(w, s, k, now), s, now)
  {
  }

  lemma LockedMarks(cfg: Config, st: State, s: Store, k: Label, now: int)
    requires Inv(cfg, st) && s < STORES
    ensures Marks(cfg, st, Locked(cfg, st, s, k, now), s, now)
  {
    if k in st.live[s] {
      StampMarks(cfg, st, s, st.live[s][k], now);
    } else if Folds(cfg, st, |st.live[s]|, now) && cfg.overflow in st.live[s] {
      StampMarks(cfg, st, s, st.live[s][cfg.overflow], now);
    } else {
      var w := MaybeSweep(cfg, st, now);
      SweepKeeps(cfg, st, now);
      var key := if cfg.maxSeries > 0 && |w.live[s]| >= cfg.maxSeries then cfg.overflow else k;
      if key in w.live[s] {
        StampMarks(cfg, w, s, w.live[s][key], now);
      } else {
        InsertMarks(cfg, st, w, s, key, now);
      }
    }
  }

  lemma LookupMarks(cfg: Config, st: State, view: map<Label, Sid>, s: Store, k: Label, now: int)
    requires Inv(cfg, st) && s < STORES && Belongs(st, view, s)
    ensures Marks(cfg, st, Lookup(cfg, st, view, s, k, now), s, now)
  {
    if k in view {
      StampMarks(cfg, st, s, view[k], now);
    } else if Folds(cfg, st, |view|, now) && cfg.overflow in view {
      StampMarks(cfg, st, s, view[cfg.overflow], now);
    } else {
      LockedMarks(cfg, st, s, k, now);
    }
  }

  // ---------------------------------------------------------------- what is counted

  /** All labels of the request are in the views it loads. */
  predicate Tracked(st: State, r: Request)
    requires |st.views| == STORES && WellFormed(r)
  {
    forall i :: 0 <= i < |r.items| ==> r.items[i].key in st.views[r.items[i].store]
  }

  /** One count more on the series, and its mark. */
  function Counted(cfg: Config, series: seq<Series>, sid: Sid, now: int): seq<Series>
    requires 0 <= sid < |series|
  {
    series[sid := Series(if cfg.ttl == 0 then series[sid].lastSeen else now, series[sid].hits + 1)]
  }

  lemma TrackedStep(cfg: Config, st: State, view: map<Label, Sid>, it: Item, now: int)
    requires Inv(cfg, st) && it.store < STORES && Belongs(st, view, it.store) && it.key in view
    ensures Step(cfg, st, view, it, now)
         == Found(st.(series := st.series[it.store := Counted(cfg, st.series[it.store], view[it.key], now)]), view[it.key])
  {
    var s, sid := it.store, view[it.key];
    assert Stamped(st.series[s], sid, now)[sid := Series(now, st.series[s][sid].hits + 1)] == Counted(cfg, st.series[s], sid, now) || cfg.ttl == 0;
  }

  /** What the first n lookups make of the series of store t, if all labels are tracked. */
  function Expected(cfg: Config, st: State, r: Request, n: nat, t: Store): seq<Series>
    requires Inv(cfg, st) && WellFormed(r) && Tracked(st, r) && n <= |r.items| && t < STORES
    ensures |Expected(cfg, st, r, n, t)| == |st.series[t]|
  {
    if n == 0 then st.series[t]
    else
      var before, it := Expected(cfg, st, r, n - 1, t), r.items[n - 1];
      if it.store == t then Counted(cfg, before, st.views[t][it.key], r.now) else before
  }

  predicate AsExpected(cfg: Config, st: State, r: Request, n: nat, mid: State)
    requires Inv(cfg, st) && WellFormed(r) && Tracked(st, r) && n <= |r.items|
  {
    mid == st.(series := mid.series) && |mid.series| == STORES && forall t :: 0 <= t < STORES ==> mid.series[t] == Expected(cfg, st, r, n, t)
  }

  lemma TrackedNext(cfg: Config, st: State, r: Request, n: nat, mid: State)
    requires Inv(cfg, st) && WellFormed(r) && Tracked(st, r) && n < |r.items| && Inv(cfg, mid) && AsExpected(cfg, st, r, n, mid)
    requires Belongs(mid, st.views[r.items[n].store], r.items[n].store)
    ensures AsExpected(cfg, st, r, n + 1, Step(cfg, mid, st.views[r.items[n].store], r.items[n], r.now).st)
  {
    var it := r.items[n];
    TrackedStep(cfg, mid, st.views[it.store], it, r.now);
  }

  lemma ServeNext(cfg: Config, st: State, r: Request, n: nat)
    requires Inv(cfg, st) && WellFormed(r) && n < |r.items|
    ensures var it, mid := r.items[n], Serve(cfg, st, r, n).states[n];
      && Inv(cfg, mid) && Belongs(mid, st.views[it.store], it.store)
      && Serve(cfg, st, r, n + 1).states[n + 1] == Step(cfg, mid, st.views[it.store], it, r.now).st
  {
    ViewBelongs(st, r.items[n].store);
    StillBelongs(st, Serve(cfg, st, r, n).states[n], st.views[r.items[n].store], r.items[n].store);
  }

  lemma ServeTracked(cfg: Config, st: State, r: Request, n: nat)
    requires Inv(cfg, st) && WellFormed(r) && Tracked(st, r) && n < |r.items|
    requires AsExpected(cfg, st, r, n, Serve(cfg, st, r, n).states[n])
    ensures AsExpected(cfg, st, r, n + 1, Serve(cfg, st, r, n + 1).states[n + 1])
  {
    ServeNext(cfg, st, r, n);
    TrackedNext(cfg, st, r, n, Serve(cfg, st, r, n).states[n]);
  }

  lemma NothingServed(cfg: Config, st: State, r: Request)
    requires Inv(cfg, st) && WellFormed(r) && Tracked(st, r)
    ensures AsExpected(cfg, st, r, 0, Serve(cfg, st, r, 0).states[0])
  {
  }

  lemma {:induction false} TrackedServe(cfg: Config, st: State, r: Request, n: nat)
    requires Inv(cfg, st) && WellFormed(r) && Tracked(st, r) && n <= |r.items|
    ensures AsExpected(cfg, st, r, n, Serve(cfg, st, r, n).states[n])
  {
    if n == 0 {
      NothingServed(cfg, st, r);
    } else {
      TrackedServe(cfg, st, r, n - 1);
      ServeTracked(cfg, st, r, n - 1);
    }
  }

  /** The label the middleware counts a request under in each map, if it does. */
  function LabelIn(t: Store, counterKey: Label, durationKey: Label): Label { if t == COUNTERS then counterKey else durationKey }

  predicate CountsIn(t: Store, body: bool) { t == COUNTERS || t == DURATIONS || t == HISTOGRAMS || (t == BYTES && body) }

  lemma MiddlewareExpects(cfg: Config, st: State, counterKey: Label, durationKey: Label, body: bool, now: int, t: Store)
    requires var r := Middleware(counterKey, durationKey, body, now); Inv(cfg, st) && Tracked(st, r) && t < STORES
    ensures var r := Middleware(counterKey, durationKey, body, now);
      && (CountsIn(t, body) ==> LabelIn(t, counterKey, durationKey) in st.views[t])
      && Expected(cfg, st, r, |r.items|, t)
         == (if CountsIn(t, body) then Counted(cfg, st.series[t], st.views[t][LabelIn(t, counterKey, durationKey)], now) else st.series[t])
  {
    var r := Middleware(counterKey, durationKey, body, now);
    ExpectedNext(cfg, st, r, 0, t, Item(COUNTERS, counterKey));
    ExpectedNext(cfg, st, r, 1, t, Item(DURATIONS, durationKey));
    ExpectedNext(cfg, st, r, 2, t, Item(HISTOGRAMS, durationKey));
    if body {
      ExpectedNext(cfg, st, r, 3, t, Item(BYTES, durationKey));
    }
  }

  lemma ExpectedNext(cfg: Config, st: State, r: Request, n: nat, t: Store, it: Item)
    requires Inv(cfg, st) && WellFormed(r) && Tracked(st, r) && n < |r.items| && t < STORES && r.items[n] == it
    ensures it.store < STORES && it.key in st.views[it.store]
    ensures Expected(cfg, st, r, n + 1, t)
         == if it.store == t then Counted(cfg, Expected(cfg, st, r, n, t), st.views[t][it.key], r.now) else Expected(cfg, st, r, n, t)
  {
  }

  /** The request counts once in map t, under its label there, or not at all. */
  predicate CountsOnce(cfg: Config, st: State, after: State, t: Store, k: Label, counts: bool, now: int)
    requires Shape(st) && t < |after.series| && t < STORES
  {
    && after.live == st.live && after.views == st.views
    && if counts then k in st.live[t] && after.series[t] == Counted(cfg, st.series[t], st.live[t][k], now)
       else after.series[t] == st.series[t]
  }

  lemma RequestCountsFrom(cfg: Config, st: State, counterKey: Label, durationKey: Label, body: bool, now: int, t: Store)
    requires Inv(cfg, st) && t < STORES && Tracked(st, Middleware(counterKey, durationKey, body, now))
    ensures var after := Recorded(cfg, st, Middleware(counterKey, durationKey, body, now));
      CountsOnce(cfg, st, after, t, LabelIn(t, counterKey, durationKey), CountsIn(t, body), now)
  {
    var r := Middleware(counterKey, durationKey, body, now);
    TrackedServe(cfg, st, r, |r.items|);
    MiddlewareExpects(cfg, st, counterKey, durationKey, body, now, t);
  }

  /** After every run, a request all of whose labels are tracked adds one count in the
      counters, under the label with the status, and one each in durations and histograms,
      under the label without it; and under that label in the request bytes if and only if
      it has a body. Nothing is added to or dropped from any map. */
  lemma RequestCounts(cfg: Config, t0: int, reqs: seq<Request>, counterKey: Label, durationKey: Label, body: bool, now: int, t: Store)
    requires Requests(reqs) && t < STORES && Tracked(Exec(cfg, t0, reqs), Middleware(counterKey, durationKey, body, now))
    ensures var after := Recorded(cfg, Exec(cfg, t0, reqs), Middleware(counterKey, durationKey, body, now));
      CountsOnce(cfg, Exec(cfg, t0, reqs), after, t, LabelIn(t, counterKey, durationKey), CountsIn(t, body), now)
  {
    RequestCountsFrom(cfg, Exec(cfg, t0, reqs), counterKey, durationKey, body, now, t);
  }
}
