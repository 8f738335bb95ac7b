/** Runs of requests: what they answer, what they keep and what they count. */
module MetricsRuns {
  import opened Metrics
  import opened MetricsRequests

  function Append(h: History, f: Found): History { History(h.states + [f.st], h.sids + [f.sid]) }

  lemma ServedAppend(cfg: Config, st: State, r: Request, h: History, f: Found)
    requires Inv(cfg, st) && WellFormed(r) && Served(cfg, st, r, h) && |h.sids| < |r.items|
    requires Did(cfg, st, r, |h.sids|, h.states[|h.sids|], f)
    ensures Served(cfg, st, r, Append(h, f))
  {
    var g := Append(h, f);
    forall n | 0 <= n < |g.sids|
      ensures Did(cfg, st, r, n, g.states[n], Found(g.states[n + 1], g.sids[n]))
    {
      if n < |h.sids| {
        assert Did(cfg, st, r, n, h.states[n], Found(h.states[n + 1], h.sids[n]));
      }
    }
  }

  lemma ServedLockedAppend(cfg: Config, st: State, r: Request, h: History, f: Found)
    requires Inv(cfg, st) && WellFormed(r) && ServedLocked(cfg, st, r, h) && |h.sids| < |r.items|
    requires DidLocked(cfg, r, |h.sids|, h.states[|h.sids|], f)
    ensures ServedLocked(cfg, st, r, Append(h, f))
  {
    var g := Append(h, f);
    forall n | 0 <= n < |g.sids|
      ensures DidLocked(cfg, r, n, g.states[n], Found(g.states[n + 1], g.sids[n]))
    {
      if n < |h.sids| {
        assert DidLocked(cfg, r, n, h.states[n], Found(h.states[n + 1], h.sids[n]));
      }
    }
  }

  /** The first n lookups of a request. */
  ghost function Serve(cfg: Config, st: State, r: Request, n: nat): (h: History)
    requires Inv(cfg, st) && WellFormed(r) && n <= |r.items|
    ensures |h.sids| == n && Served(cfg, st, r, h) && Inv(cfg, h.states[n]) && Extends(st, h.states[n])
  {
    if n == 0 then History([st], [])
    else
      var h, s := Serve(cfg, st, r, n - 1), r.items[n - 1].store;
      ViewBelongs(st, s);
      StillBelongs(st, h.states[n - 1], st.views[s], s);
      var f := Step(cfg, h.states[n - 1], st.views[s], r.items[n - 1], r.now);
      ServedAppend(cfg, st, r, h, f);
      Append(h, f)
  }

  ghost function ServeLocked(cfg: Config, st: State, r: Request, n: nat): (h: History)
    requires Inv(cfg, st) && WellFormed(r) && n <= |r.items|
    ensures |h.sids| == n && ServedLocked(cfg, st, r, h) && Inv(cfg, h.states[n])
  {
    if n == 0 then History([st], [])
    else
      var h := ServeLocked(cfg, st, r, n - 1);
      var f := LockedStep(cfg, h.states[n - 1], r.items[n - 1], r.now);
      ServedLockedAppend(cfg, st, r, h, f);
      Append(h, f)
  }

  lemma {:induction false} ServedExtends(cfg: Config, st: State, r: Request, h: History, n: nat)
    requires Inv(cfg, st) && WellFormed(r) && Served(cfg, st, r, h) && n <= |h.sids|
    ensures Inv(cfg, h.states[n]) && Extends(st, h.states[n])
  {
    if n > 0 {
      ServedExtends(cfg, st, r, h, n - 1);
      assert Did(cfg, st, r, n - 1, h.states[n - 1], Found(h.states[n], h.sids[n - 1]));
    }
  }

  /** A request has one outcome. */
  lemma {:induction false} ServedIsServe(cfg: Config, st: State, r: Request, h: History, n: nat)
    requires Inv(cfg, st) && WellFormed(r) && Served(cfg, st, r, h) && n <= |h.sids|
    ensures h.states[n] == Serve(cfg, st, r, n).states[n]
  {
    if n > 0 {
      ServedIsServe(cfg, st, r, h, n - 1);
      assert Did(cfg, st, r, n - 1, h.states[n - 1], Found(h.states[n], h.sids[n - 1]));
    }
  }

  /** A run, and the same run with the lock taken for every lookup. */
  ghost predicate Requests(reqs: seq<Request>) { forall i :: 0 <= i < |reqs| ==> WellFormed(reqs[i]) }

  ghost function Recorded(cfg: Config, st: State, r: Request): (after: State)
    requires Inv(cfg, st) && WellFormed(r)
    ensures Inv(cfg, after)
  {
    Serve(cfg, st, r, |r.items|).states[|r.items|]
  }

  ghost function RecordedLocked(cfg: Config, st: State, r: Request): (after: State)
    requires Inv(cfg, st) && WellFormed(r)
    ensures Inv(cfg, after)
  {
    ServeLocked(cfg, st, r, |r.items|).states[|r.items|]
  }

  ghost function Exec(cfg: Config, t0: int, reqs: seq<Request>): (st: State)
    requires Requests(reqs)
    ensures Inv(cfg, st)
  {
    if reqs == [] then Start(t0) else Recorded(cfg, Exec(cfg, t0, reqs[..|reqs| - 1]), reqs[|reqs| - 1])
  }

  ghost function ExecLocked(cfg: Config, t0: int, reqs: seq<Request>): (st: State)
    requires Requests(reqs)
    ensures Inv(cfg, st)
  {
    if reqs == [] then Start(t0) else RecordedLocked(cfg, ExecLocked(cfg, t0, reqs[..|reqs| - 1]), reqs[|reqs| - 1])
  }

  /** The series that the requests of a run were given. */
  ghost function Answers(cfg: Config, t0: int, reqs: seq<Request>): (a: seq<seq<Sid>>)
    requires Requests(reqs)
    ensures |a| == |reqs|
  {
    if reqs == [] then []
    else
      var r := reqs[|reqs| - 1];
      Answers(cfg, t0, reqs[..|reqs| - 1]) + [Serve(cfg, Exec(cfg, t0, reqs[..|reqs| - 1]), r, |r.items|).sids]
  }

  ghost function AnswersLocked(cfg: Config, t0: int, reqs: seq<Request>): (a: seq<seq<Sid>>)
    requires Requests(reqs)
    ensures |a| == |reqs|
  {
    if reqs == [] then []
    else
      var r := reqs[|reqs| - 1];
      AnswersLocked(cfg, t0, reqs[..|reqs| - 1]) + [ServeLocked(cfg, ExecLocked(cfg, t0, reqs[..|reqs| - 1]), r, |r.items|).sids]
  }

  /** No request of the run makes a stale lookup. */
  ghost predicate FreshRun(cfg: Config, t0: int, reqs: seq<Request>)
    requires Requests(reqs)
  {
    reqs == [] ||
    var before, r := reqs[..|reqs| - 1], reqs[|reqs| - 1];
    FreshRun(cfg, t0, before) && Fresh(cfg, Exec(cfg, t0, before), r, |r.items|)
  }

  lemma ServeIff(cfg: Config, st: State, r: Request)
    requires Inv(cfg, st) && WellFormed(r)
    ensures var h, l := Serve(cfg, st, r, |r.items|), ServeLocked(cfg, st, r, |r.items|);
            && (h.sids == l.sids <==> Fresh(cfg, st, r, |r.items|))
            && (Fresh(cfg, st, r, |r.items|) ==> Recorded(cfg, st, r) == RecordedLocked(cfg, st, r))
  {
    var h, l := Serve(cfg, st, r, |r.items|), ServeLocked(cfg, st, r, |r.items|);
    RequestIff(cfg, st, r, h, l, |r.items|);
    assert h.sids[..|r.items|] == h.sids && l.sids[..|r.items|] == l.sids;
  }

  lemma LastDiffers(a: seq<seq<Sid>>, b: seq<seq<Sid>>, x: seq<Sid>, y: seq<Sid>)
    ensures |a| == |b| ==> (a + [x] == b + [y] <==> a == b && x == y)
  {
    if |a| == |b| && a + [x] == b + [y] {
      assert (a + [x])[..|a|] == a && (b + [y])[..|a|] == b;
      assert (a + [x])[|a|] == x && (b + [y])[|b|] == y;
    }
  }

  /** The views are unobservable in a run if and only if no request of it makes a
      stale lookup: every answer is then the lock's, and both runs end alike. */
  lemma {:induction false} ViewsUnobservableIff(cfg: Config, t0: int, reqs: seq<Request>)
    requires Requests(reqs)
    ensures Answers(cfg, t0, reqs) == AnswersLocked(cfg, t0, reqs) <==> FreshRun(cfg, t0, reqs)
    ensures FreshRun(cfg, t0, reqs) ==> Exec(cfg, t0, reqs) == ExecLocked(cfg, t0, reqs)
  {
    if reqs != [] {
      var before, r := reqs[..|reqs| - 1], reqs[|reqs| - 1];
      ViewsUnobservableIff(cfg, t0, before);
      LastDiffers(Answers(cfg, t0, before), AnswersLocked(cfg, t0, before),
                  Serve(cfg, Exec(cfg, t0, before), r, |r.items|).sids, ServeLocked(cfg, ExecLocked(cfg, t0, before), r, |r.items|).sids);
      if FreshRun(cfg, t0, before) {
        ServeIff(cfg, Exec(cfg, t0, before), r);
      }
    }
  }

  predicate Single(reqs: seq<Request>) { forall i :: 0 <= i < |reqs| ==> |reqs[i].items| <= 1 }

  /** A caller that loads the views for each lookup, and one that never sweeps, is
      always answered as by the lock. */
  lemma {:induction false} PlainRunsAreFresh(cfg: Config, t0: int, reqs: seq<Request>)
    requires Requests(reqs) && (Single(reqs) || cfg.ttl == 0)
    ensures FreshRun(cfg, t0, reqs)
    ensures Answers(cfg, t0, reqs) == AnswersLocked(cfg, t0, reqs)
  {
    if reqs != [] {
      var before, r := reqs[..|reqs| - 1], reqs[|reqs| - 1];
      PlainRunsAreFresh(cfg, t0, before);
      NothingStale(cfg, Exec(cfg, t0, before), r, |r.items|);
    }
    ViewsUnobservableIff(cfg, t0, reqs);
  }

  lemma {:induction false} NothingStale(cfg: Config, st: State, r: Request, n: nat)
    requires Inv(cfg, st) && WellFormed(r) && n <= |r.items| && (|r.items| <= 1 || cfg.ttl == 0)
    ensures Fresh(cfg, st, r, n)
  {
    if n > 0 {
      NothingStale(cfg, st, r, n - 1);
    }
  }

  /** Over every run: each capped map holds at most one more series than the cap, and
      the views hold nothing the maps do not. */
  lemma BoundedSeries(cfg: Config, t0: int, reqs: seq<Request>, s: Store)
    requires Requests(reqs) && s < STORES && cfg.maxSeries > 0
    ensures |Exec(cfg, t0, reqs).live[s]| <= cfg.maxSeries + 1
    ensures forall k :: k in Exec(cfg, t0, reqs).views[s] ==>
              k in Exec(cfg, t0, reqs).live[s] && Exec(cfg, t0, reqs).live[s][k] == Exec(cfg, t0, reqs).views[s][k]
  {
    var st := Exec(cfg, t0, reqs);
    assert WithinCap(cfg, st.live[s]);
  }

  /** Over every run: the views are exact up to 8192 entries, and beyond that they hold
      more than half of what is live. */
  lemma ViewsKeepUp(cfg: Config, t0: int, reqs: seq<Request>)
    requires Requests(reqs)
    ensures var st := Exec(cfg, t0, reqs);
            if Total(st.live) <= EAGER_ENTRIES then st.views == st.live else Total(st.live) < 2 * Total(st.views)
  {
    var st := Exec(cfg, t0, reqs);
    assert Paced(st);
  }

  // ---------------------------------------------------------------- counts

  function AllHits(series: seq<Series>): nat {
    if series == [] then 0 else AllHits(series[..|series| - 1]) + series[|series| - 1].hits
  }

  /** The hits of the series in a set. */
  function HitsAmong(series: seq<Series>, sids: set<Sid>): nat {
    if series == [] then 0
    else
      var n := |series| - 1;
      HitsAmong(series[..n], sids) + if n in sids then series[n].hits else 0
  }

  ghost function LiveSids(st: State, s: Store): set<Sid>
    requires s < |st.live|
  {
    set k | k in st.live[s] :: st.live[s][k]
  }

  ghost function SweptSids(st: State, s: Store): set<Sid>
    requires s < |st.live| == |st.series|
  {
    set i | 0 <= i < |st.series[s]| && i !in LiveSids(st, s)
  }

  lemma {:induction false} HitsSplit(series: seq<Series>, a: set<Sid>, b: set<Sid>)
    requires forall i :: 0 <= i < |series| ==> (i in a <==> i !in b)
    ensures HitsAmong(series, a) + HitsAmong(series, b) == AllHits(series)
  {
    if series != [] {
      HitsSplit(series[..|series| - 1], a, b);
    }
  }

  lemma {:induction false} AllHitsUpdate(series: seq<Series>, i: nat, x: Series)
    requires i < |series|
    ensures AllHits(series[i := x]) == AllHits(series) - series[i].hits + x.hits
  {
    var n := |series| - 1;
    if i == n {
      assert series[i := x][..n] == series[..n];
    } else {
      assert series[i := x][..n] == series[..n][i := x];
      AllHitsUpdate(series[..n], i, x);
    }
  }

  lemma StampKeepsHits(cfg: Config, st: State, s: Store, sid: Sid, now: int)
    requires s < |st.series| && 0 <= sid < |st.series[s]|
    ensures AllHits(Stamp(st, s, sid, now).series[s]) == AllHits(st.series[s])
    ensures AllHits(Touch(cfg, st, s, sid, now).series[s]) == AllHits(st.series[s])
  {
    AllHitsUpdate(st.series[s], sid, st.series[s][sid].(lastSeen := now));
  }

  lemma InsertKeepsHits(st: State, s: Store, k: Label, now: int)
    requires s < |st.live| == |st.series|
    ensures var f := Insert(st, s, k, now).st; |f.series| == |st.series| && AllHits(f.series[s]) == AllHits(st.series[s])
  {
    assert (st.series[s] + [Series(now, 0)])[..|st.series[s]|] == st.series[s];
  }

  lemma LockedKeepsHits(cfg: Config, st: State, s: Store, k: Label, now: int)
    requires Inv(cfg, st) && s < STORES
    ensures var f := Locked(cfg, st, s, k, now).st; |f.series| == STORES && AllHits(f.series[s]) == AllHits(st.series[s])
  {
    if k in st.live[s] {
      StampKeepsHits(cfg, st, s, st.live[s][k], now);
    } else if Folds(cfg, st, |st.live[s]|, now) && cfg.overflow in st.live[s] {
      StampKeepsHits(cfg, st, s, st.live[s][cfg.overflow], now);
    } else {
      var w := MaybeSweep(cfg, st, now);
      SweepKeeps(cfg, st, now);
      var key := if cfg.maxSeries > 0 && |w.live[s]| >= cfg.maxSeries then cfg.overflow else k;
      if key in w.live[s] {
        StampKeepsHits(cfg, w, s, w.live[s][key], now);
      } else {
        InsertKeepsHits(w, s, key, now);
      }
    }
  }

  /** Finding a series counts nothing. */
  lemma LookupKeepsHits(cfg: Config, st: State, view: map<Label, Sid>, s: Store, k: Label, now: int)
    requires Inv(cfg, st) && s < STORES && Belongs(st, view, s)
    ensures var f := Lookup(cfg, st, view, s, k, now).st; |f.series| == STORES && AllHits(f.series[s]) == AllHits(st.series[s])
  {
    if k in view {
      StampKeepsHits(cfg, st, s, view[k], now);
    } else if Folds(cfg, st, |view|, now) && cfg.overflow in view {
      StampKeepsHits(cfg, st, s, view[cfg.overflow], now);
    } else {
      LockedKeepsHits(cfg, st, s, k, now);
    }
  }

  lemma HitCounts(st: State, s: Store, sid: Sid)
    requires s < |st.series| && 0 <= sid < |st.series[s]|
    ensures AllHits(Hit(st, s, sid).series[s]) == AllHits(st.series[s]) + 1
  {
    var x := st.series[s][sid];
    AllHitsUpdate(st.series[s], sid, x.(hits := x.hits + 1));
  }

  lemma OwnStepCounts(cfg: Config, st: State, view: map<Label, Sid>, it: Item, now: int)
    requires Inv(cfg, st) && it.store < STORES && Belongs(st, view, it.store)
    ensures AllHits(Step(cfg, st, view, it, now).st.series[it.store]) == AllHits(st.series[it.store]) + 1
  {
    LookupKeeps(cfg, st, view, it.store, it.key, now);
    LookupKeepsHits(cfg, st, view, it.store, it.key, now);
    var f := Lookup(cfg, st, view, it.store, it.key, now);
    HitCounts(f.st, it.store, f.sid);
  }

  lemma StepCounts(cfg: Config, st: State, view: map<Label, Sid>, it: Item, now: int, s: Store)
    requires Inv(cfg, st) && it.store < STORES && Belongs(st, view, it.store) && s < STORES
    ensures AllHits(Step(cfg, st, view, it, now).st.series[s]) == AllHits(st.series[s]) + if it.store == s then 1 else 0
  {
    if it.store == s {
      OwnStepCounts(cfg, st, view, it, now);
    } else {
      StepAside(cfg, st, view, it, now);
      OthersAt(Base(cfg, st, view, it, now), Step(cfg, st, view, it, now).st, it.store, s);
    }
  }

  function Asks(items: seq<Item>, s: Store): nat {
    if items == [] then 0 else Asks(items[..|items| - 1], s) + if items[|items| - 1].store == s then 1 else 0
  }

  lemma {:induction false} ServedCounts(cfg: Config, st: State, r: Request, h: History, n: nat, s: Store)
    requires Inv(cfg, st) && WellFormed(r) && Served(cfg, st, r, h) && n <= |h.sids| && s < STORES
    ensures |h.states[n].series| == STORES && AllHits(h.states[n].series[s]) == AllHits(st.series[s]) + Asks(r.items[..n], s)
  {
    if n > 0 {
      ServedCounts(cfg, st, r, h, n - 1, s);
      assert Did(cfg, st, r, n - 1, h.states[n - 1], Found(h.states[n], h.sids[n - 1]));
      StepCounts(cfg, h.states[n - 1], st.views[r.items[n - 1].store], r.items[n - 1], r.now, s);
      assert r.items[..n][..n - 1] == r.items[..n - 1];
    }
  }

  /** How often the run asks a store. */
  function AllAsks(reqs: seq<Request>, s: Store): nat {
    if reqs == [] then 0 else AllAsks(reqs[..|reqs| - 1], s) + Asks(reqs[|reqs| - 1].items, s)
  }

  lemma {:induction false} EveryHitIsThere(cfg: Config, t0: int, reqs: seq<Request>, s: Store)
    requires Requests(reqs) && s < STORES
    ensures AllHits(Exec(cfg, t0, reqs).series[s]) == AllAsks(reqs, s)
  {
    if reqs != [] {
      var st, r := Exec(cfg, t0, reqs[..|reqs| - 1]), reqs[|reqs| - 1];
      EveryHitIsThere(cfg, t0, reqs[..|reqs| - 1], s);
      ServedCounts(cfg, st, r, Serve(cfg, st, r, |r.items|), |r.items|, s);
      assert r.items[..|r.items|] == r.items;
    }
  }

  /** Conservation, stale lookups included: over every run and for every store, the
      hits of its live series and of its swept ones add up to the lookups in it. */
  lemma CountsConserved(cfg: Config, t0: int, reqs: seq<Request>, s: Store)
    requires Requests(reqs) && s < STORES
    ensures var st := Exec(cfg, t0, reqs);
            HitsAmong(st.series[s], LiveSids(st, s)) + HitsAmong(st.series[s], SweptSids(st, s)) == AllAsks(reqs, s)
  {
    var st := Exec(cfg, t0, reqs);
    EveryHitIsThere(cfg, t0, reqs, s);
    HitsSplit(st.series[s], LiveSids(st, s), SweptSids(st, s));
  }

  /** The n-th count of a request that ends a run is on a series out of its map when the
      request is over if and only if the lookup is lost. */
  lemma CountedWhereSeenIff(cfg: Config, t0: int, reqs: seq<Request>, r: Request, n: nat)
    requires Requests(reqs) && WellFormed(r) && n < |r.items|
    ensures var st := Exec(cfg, t0, reqs);
            Serve(cfg, st, r, |r.items|).sids[n] in LiveSids(Recorded(cfg, st, r), r.items[n].store) <==> !Lost(cfg, st, r, n)
  {
    var st := Exec(cfg, t0, reqs);
    LostIff(cfg, st, r, Serve(cfg, st, r, |r.items|), n);
  }

  // ---------------------------------------------------------------- the two ways to be stale

  /** A state in which only histograms were ever asked. */
  function Observed(m: map<Label, Sid>, series: seq<Series>): State {
    State([map[], map[], map[], m], [map[], map[], map[], m], |m|, 0, [[], [], [], series])
  }

  lemma TotalSkips(maps: seq<map<Label, Sid>>)
    ensures Total([map[]] + maps) == Total(maps)
  {
    var none: map<Label, Sid> := map[];
    var all := [none] + maps;
    assert all[0] == none && |none| == 0 && all[1..] == maps;
  }

  lemma TotalObserved(m: map<Label, Sid>)
    ensures Total([map[], map[], map[], m]) == |m|
  {
    var a: seq<map<Label, Sid>> := [m];
    assert a[1..] == [] && Total(a) == |m|;
    TotalSkips(a);
    TotalSkips([map[]] + a);
    TotalSkips([map[]] + ([map[]] + a));
    assert [map[], map[], map[], m] == [map[]] + ([map[]] + ([map[]] + a));
  }

  /** One observation of a label not in a map of at most a handful of entries, before
      any sweep is due: it inserts the label, or the overflow label if the map is full. */
  lemma ObservationInserts(cfg: Config, m: map<Label, Sid>, series: seq<Series>, k: Label, now: int)
    requires Inv(cfg, Observed(m, series)) && now < cfg.ttl && |m| < 100
    requires k !in m && cfg.overflow !in m
    ensures var key := if cfg.maxSeries > 0 && |m| >= cfg.maxSeries then cfg.overflow else k;
            Recorded(cfg, Observed(m, series), Observation(k, now)) == Observed(m[key := |series|], series + [Series(now, 1)])
  {
    var st, r := Observed(m, series), Observation(k, now);
    var key := if cfg.maxSeries > 0 && |m| >= cfg.maxSeries then cfg.overflow else k;
    var h := Serve(cfg, st, r, 1);
    assert Did(cfg, st, r, 0, h.states[0], Found(h.states[1], h.sids[0]));
    var f := Lookup(cfg, st, m, HISTOGRAMS, k, now);
    assert f == Locked(cfg, st, HISTOGRAMS, k, now) == Insert(st, HISTOGRAMS, key, now);
    TotalObserved(m[key := |series|]);
    assert Added(st, HISTOGRAMS, key, now).live == [map[], map[], map[], m[key := |series|]];
    assert f.st.series == [[], [], [], series + [Series(now, 0)]];
    assert h.states[1] == Hit(f.st, HISTOGRAMS, f.sid);
    assert (series + [Series(now, 0)])[|series| := Series(now, 1)] == series + [Series(now, 1)];
    assert h.states[1].series == [[], [], [], series + [Series(now, 1)]];
  }

  /** A run of observations, each of a new label, the last of which may fold. */
  lemma ObservationExec(cfg: Config, reqs: seq<Request>, m: map<Label, Sid>, series: seq<Series>, k: Label, now: int)
    requires Requests(reqs) && Exec(cfg, 0, reqs) == Observed(m, series) && now < cfg.ttl && |m| < 100
    requires k !in m && cfg.overflow !in m
    ensures var key := if cfg.maxSeries > 0 && |m| >= cfg.maxSeries then cfg.overflow else k;
            Exec(cfg, 0, reqs + [Observation(k, now)]) == Observed(m[key := |series|], series + [Series(now, 1)])
  {
    ObservationInserts(cfg, m, series, k, now);
    assert (reqs + [Observation(k, now)])[..|reqs|] == reqs;
  }

  lemma ObservedOnce(cfg: Config, k: Label, now: int)
    requires now < cfg.ttl
    ensures Exec(cfg, 0, [Observation(k, now)]) == Observed(map[k := 0], [Series(now, 1)])
  {
    ObservationExec(cfg, [], map[], [], k, now);
    assert [] + [Observation(k, now)] == [Observation(k, now)];
    assert [] + [Series(now, 1)] == [Series(now, 1)];
  }

  /** A path whose histogram has been idle comes with a status not seen before: the
      counter lookup sweeps the histogram away, and the latency is counted on it. */
  lemma LatencyMayBeLost(counterKey: Label, path: Label, overflow: Label)
    ensures var cfg := Config(1000, 100, overflow);
            var st := Exec(cfg, 0, [Observation(path, 0)]);
            Lost(cfg, st, Middleware(counterKey, path, false, 200), 2)
  {
    var cfg, r := Config(1000, 100, overflow), Middleware(counterKey, path, false, 200);
    ObservedOnce(cfg, path, 0);
    assert r.items[0].key !in Observed(map[path := 0], [Series(0, 1)]).live[0];
  }

  lemma ObservedTwice(cfg: Config, a: Label, b: Label) returns (run: seq<Request>)
    requires cfg.maxSeries == 2 && cfg.ttl == 100 && a != b && cfg.overflow != a
    ensures Requests(run) && Exec(cfg, 0, run) == Observed(map[a := 0, b := 1], [Series(0, 1), Series(0, 1)])
  {
    ObservedOnce(cfg, a, 0);
    ObservationExec(cfg, [Observation(a, 0)], map[a := 0], [Series(0, 1)], b, 0);
    assert [Series(0, 1)] + [Series(0, 1)] == [Series(0, 1), Series(0, 1)] && map[a := 0][b := 1] == map[a := 0, b := 1];
    run := [Observation(a, 0)] + [Observation(b, 0)];
  }

  lemma ThirdFolds(cfg: Config, two: seq<Request>, m: map<Label, Sid>, series: seq<Series>, c: Label) returns (run: seq<Request>)
    requires cfg.maxSeries == 2 && cfg.ttl == 100 && |m| == 2 && c !in m && cfg.overflow !in m && |series| == 2
    requires Requests(two) && Exec(cfg, 0, two) == Observed(m, series)
    ensures Requests(run) && Exec(cfg, 0, run) == Observed(m[cfg.overflow := 2], series + [Series(50, 1)])
  {
    ObservationExec(cfg, two, m, series, c, 50);
    run := two + [Observation(c, 50)];
  }

  lemma ObservedThrice(cfg: Config, a: Label, b: Label, c: Label) returns (run: seq<Request>)
    requires cfg.maxSeries == 2 && cfg.ttl == 100 && a != b && c != a && c != b && cfg.overflow != a && cfg.overflow != b
    ensures Requests(run)
    ensures Exec(cfg, 0, run) == Observed(map[a := 0, b := 1][cfg.overflow := 2], [Series(0, 1), Series(0, 1)] + [Series(50, 1)])
  {
    var two := ObservedTwice(cfg, a, b);
    var m := map[a := 0, b := 1];
    assert m.Keys == {a, b} && |m| == |m.Keys| == 2;
    run := ThirdFolds(cfg, two, m, [Series(0, 1), Series(0, 1)], c);
  }

  lemma RoomAgain(cfg: Config, m: map<Label, Sid>, series: seq<Series>, a: Label, b: Label, d: Label)
    requires cfg.maxSeries == 2 && cfg.ttl == 100 && a != b && d != a && d != b && cfg.overflow !in {a, b, d}
    requires m == map[a := 0, b := 1][cfg.overflow := 2] && series == [Series(0, 1), Series(0, 1)] + [Series(50, 1)]
    requires Inv(cfg, Observed(m, series))
    ensures Wrong(cfg, Observed(m, series), HISTOGRAMS, d, 110) && !Gone(cfg, Observed(m, series), HISTOGRAMS, d, 110)
  {
    assert m.Keys == {a, b, cfg.overflow} && |m| == |m.Keys| == 3;
    var left := Swept(m, series, 10);
    assert left == map[cfg.overflow := 2] && left.Keys == {cfg.overflow} && |left| == |left.Keys| == 1;
  }

  /** The counter lookup of a request sweeps two of three histograms away; the view it
      loaded is still full, so its own path is folded although there is room again. */
  lemma MayFoldWithRoom(counterKey: Label, a: Label, b: Label, c: Label, d: Label, overflow: Label) returns (run: seq<Request>)
    requires a != b && c != a && c != b && d != a && d != b && overflow !in {a, b, d}
    ensures var cfg, r := Config(2, 100, overflow), Middleware(counterKey, d, false, 110);
            && Requests(run)
            && Stale(cfg, Exec(cfg, 0, run), r, 2) && !Lost(cfg, Exec(cfg, 0, run), r, 2)
  {
    var cfg, r := Config(2, 100, overflow), Middleware(counterKey, d, false, 110);
    run := ObservedThrice(cfg, a, b, c);
    RoomAgain(cfg, map[a := 0, b := 1][overflow := 2], [Series(0, 1), Series(0, 1)] + [Series(50, 1)], a, b, d);
    assert r.items[0].key !in Exec(cfg, 0, run).live[0];
  }
}
