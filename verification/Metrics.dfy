/** The metrics collector: four capped maps from label to series, an idle sweep, and
    the read views published for requests that take no lock. A request makes several
    lookups on the views it loaded at its start; requests come one at a time. A series
    is known by its store and its number there, in order of creation; labels are only
    ever compared. */
module Metrics {

  type Label(==, !new)
  type Sid = int
  type Store = nat // counters, durations, request bytes, histograms

  const STORES := 4
  const EAGER_ENTRIES := 8192

  datatype Series = Series(lastSeen: int, hits: nat)

  /** maxSeries 0: no cap. ttl 0: no idle sweep. overflow: the label labels fold into. */
  datatype Config = Config(maxSeries: nat, ttl: nat, overflow: Label)

  /** series: every series ever created, by store. entries: the size of the published views. */
  datatype State = State(
    live: seq<map<Label, Sid>>, views: seq<map<Label, Sid>>, entries: nat,
    lastSweep: int, series: seq<seq<Series>>)

  datatype Found = Found(st: State, sid: Sid)

  predicate Shape(st: State) {
    && |st.live| == STORES && |st.views| == STORES && |st.series| == STORES
    && (forall s :: 0 <= s < STORES ==> Belongs(st, st.live[s], s))
  }

  /** The series of a map or view of store s. */
  predicate Belongs(st: State, m: map<Label, Sid>, s: Store)
    requires s < |st.series|
  {
    forall k :: k in m ==> 0 <= m[k] < |st.series[s]|
  }

  function Total(maps: seq<map<Label, Sid>>): nat {
    if maps == [] then 0 else |maps[0]| + Total(maps[1..])
  }

  predicate SweepDue(cfg: Config, st: State, now: int) { cfg.ttl > 0 && now - st.lastSweep >= cfg.ttl }

  /** An untracked label goes to the overflow series without the write lock. */
  predicate Folds(cfg: Config, st: State, size: nat, now: int) {
    cfg.maxSeries > 0 && size >= cfg.maxSeries && !SweepDue(cfg, st, now)
  }

  function Stamped(series: seq<Series>, sid: Sid, now: int): seq<Series>
    requires 0 <= sid < |series|
  {
    series[sid := series[sid].(lastSeen := now)]
  }

  function Stamp(st: State, s: Store, sid: Sid, now: int): State
    requires s < |st.series| && 0 <= sid < |st.series[s]|
  {
    st.(series := st.series[s := Stamped(st.series[s], sid, now)])
  }

  /** Nothing reads the stamp when sweeping is off. */
  function Touch(cfg: Config, st: State, s: Store, sid: Sid, now: int): State
    requires s < |st.series| && 0 <= sid < |st.series[s]|
  {
    if cfg.ttl == 0 then st else Stamp(st, s, sid, now)
  }

  function Publish(st: State): State { st.(views := st.live, entries := Total(st.live)) }

  function MaybePublish(st: State): State {
    if Total(st.live) <= EAGER_ENTRIES || Total(st.live) >= 2 * st.entries then Publish(st) else st
  }

  /** One map without its idle series. */
  function Swept(m: map<Label, Sid>, series: seq<Series>, cutoff: int): map<Label, Sid> {
    map k | k in m && 0 <= m[k] < |series| && series[m[k]].lastSeen >= cutoff :: m[k]
  }

  function SweptAll(maps: seq<map<Label, Sid>>, series: seq<seq<Series>>, cutoff: int): (r: seq<map<Label, Sid>>)
    requires |maps| == |series|
    ensures |r| == |maps| && forall i :: 0 <= i < |maps| ==> r[i] == Swept(maps[i], series[i], cutoff)
  {
    if maps == [] then [] else [Swept(maps[0], series[0], cutoff)] + SweptAll(maps[1..], series[1..], cutoff)
  }

  /** Every map without its idle series, all with one cutoff. */
  function Sweep(cfg: Config, st: State, now: int): State
    requires |st.live| == |st.series|
  {
    st.(lastSweep := now, live := SweptAll(st.live, st.series, now - cfg.ttl))
  }

  function MaybeSweep(cfg: Config, st: State, now: int): State
    requires |st.live| == |st.series|
  {
    if SweepDue(cfg, st, now) then Publish(Sweep(cfg, st, now)) else st
  }

  /** A new series under k, not yet published. */
  function Added(st: State, s: Store, k: Label, now: int): State
    requires s < |st.live| == |st.series|
  {
    st.(live := st.live[s := st.live[s][k := |st.series[s]|]], series := st.series[s := st.series[s] + [Series(now, 0)]])
  }

  function Insert(st: State, s: Store, k: Label, now: int): Found
    requires s < |st.live| == |st.series|
  {
    Found(MaybePublish(Added(st, s, k, now)), |st.series[s]|)
  }

  /** The locked path. */
  function Locked(cfg: Config, st: State, s: Store, k: Label, now: int): Found
    requires Shape(st) && s < STORES
  {
    if k in st.live[s] then Found(Touch(cfg, st, s, st.live[s][k], now), st.live[s][k])
    else if Folds(cfg, st, |st.live[s]|, now) && cfg.overflow in st.live[s] then
      Found(Touch(cfg, st, s, st.live[s][cfg.overflow], now), st.live[s][cfg.overflow])
    else
      var w := MaybeSweep(cfg, st, now);
      var key := if cfg.maxSeries > 0 && |w.live[s]| >= cfg.maxSeries then cfg.overflow else k;
      if key in w.live[s] then Found(Stamp(w, s, w.live[s][key], now), w.live[s][key])
      else Insert(w, s, key, now)
  }

  /** The path that asks a view first, loaded now or earlier. */
  function Lookup(cfg: Config, st: State, view: map<Label, Sid>, s: Store, k: Label, now: int): Found
    requires Shape(st) && s < STORES && Belongs(st, view, s)
  {
    if k in view then Found(Touch(cfg, st, s, view[k], now), view[k])
    else if Folds(cfg, st, |view|, now) && cfg.overflow in view then
      Found(Touch(cfg, st, s, view[cfg.overflow], now), view[cfg.overflow])
    else Locked(cfg, st, s, k, now)
  }

  /** Every view holds the same series as the live map, perhaps fewer. */
  predicate InViews(st: State) {
    |st.live| == STORES && |st.views| == STORES
    && forall s, k :: 0 <= s < STORES && k in st.views[s] ==> k in st.live[s] && st.live[s][k] == st.views[s][k]
  }

  /** What the caller does with the series it found. */
  function Hit(st: State, s: Store, sid: Sid): State
    requires s < |st.series| && 0 <= sid < |st.series[s]|
  {
    var x := st.series[s][sid];
    st.(series := st.series[s := st.series[s][sid := x.(hits := x.hits + 1)]])
  }

  const NO_MAPS: seq<map<Label, Sid>> := [map[], map[], map[], map[]]

  function Start(now: int): State { State(NO_MAPS, NO_MAPS, 0, now, [[], [], [], []]) }

  // ---------------------------------------------------------------- invariants

  /** The cap, and room for the overflow series beside it. */
  predicate WithinCap(cfg: Config, m: map<Label, Sid>) {
    cfg.maxSeries > 0 ==> |m| <= cfg.maxSeries + if cfg.overflow in m then 1 else 0
  }

  predicate Capped(cfg: Config, st: State) {
    forall s :: 0 <= s < |st.live| ==> WithinCap(cfg, st.live[s])
  }

  /** A full view with an overflow series has missed nothing. */
  predicate FullViews(cfg: Config, st: State) {
    cfg.maxSeries > 0 && |st.live| == |st.views| ==>
      forall s :: 0 <= s < |st.live| && |st.views[s]| >= cfg.maxSeries && cfg.overflow in st.views[s] ==> st.views[s] == st.live[s]
  }

  /** Views are exact while the collector is small and never less than half behind. */
  predicate Paced(st: State) {
    st.entries == Total(st.views) && (st.views == st.live || EAGER_ENTRIES < Total(st.live) < 2 * st.entries)
  }

  predicate Inv(cfg: Config, st: State) {
    Shape(st) && InViews(st) && Capped(cfg, st) && FullViews(cfg, st) && Paced(st)
  }

  lemma ViewBelongs(st: State, s: Store)
    requires Shape(st) && InViews(st) && s < STORES
    ensures Belongs(st, st.views[s], s)
  {
  }

  /** In every state the invariant allows, a lookup in the view as published now and
      the locked one return the same series and leave the same state. */
  lemma ViewRefinesLock(cfg: Config, st: State, s: Store, k: Label, now: int)
    requires Inv(cfg, st) && s < STORES
    ensures Belongs(st, st.views[s], s)
    ensures Lookup(cfg, st, st.views[s], s, k, now) == Locked(cfg, st, s, k, now)
  {
    ViewBelongs(st, s);
    if k !in st.views[s] && Folds(cfg, st, |st.views[s]|, now) && cfg.overflow in st.views[s] {
      assert st.views[s] == st.live[s];
    }
  }

  lemma {:induction false} TotalUpdate(maps: seq<map<Label, Sid>>, s: Store, k: Label, sid: Sid)
    requires s < |maps| && k !in maps[s]
    ensures Total(maps[s := maps[s][k := sid]]) == Total(maps) + 1
  {
    var r := maps[s := maps[s][k := sid]];
    if s == 0 {
      assert r[1..] == maps[1..];
    } else {
      assert r[1..] == maps[1..][s - 1 := maps[s][k := sid]];
      TotalUpdate(maps[1..], s - 1, k, sid);
    }
  }

  lemma StampKeeps(cfg: Config, st: State, s: Store, sid: Sid, now: int)
    requires Inv(cfg, st) && s < STORES && 0 <= sid < |st.series[s]|
    ensures Inv(cfg, Stamp(st, s, sid, now)) && Inv(cfg, Touch(cfg, st, s, sid, now))
  {
  }

  lemma {:induction false} SubsetSize(a: set<Label>, b: set<Label>)
    requires a <= b
    ensures |a| <= |b|
  {
    if a != {} {
      var x :| x in a;
      SubsetSize(a - {x}, b - {x});
    }
  }

  lemma SweptWithinCap(cfg: Config, m: map<Label, Sid>, series: seq<Series>, cutoff: int)
    requires WithinCap(cfg, m)
    ensures WithinCap(cfg, Swept(m, series, cutoff))
  {
    var r := Swept(m, series, cutoff);
    SubsetSize(r.Keys, m.Keys);
    assert |r| == |r.Keys| && |m| == |m.Keys|;
    if cfg.overflow in m && cfg.overflow !in r {
      SubsetSize(r.Keys, m.Keys - {cfg.overflow});
    }
  }

  /** Publishing makes the views exact. */
  lemma PublishKeeps(cfg: Config, st: State)
    requires Shape(st) && Capped(cfg, st)
    ensures Inv(cfg, Publish(st))
  {
  }

  /** The same maps with fewer entries. */
  predicate Thinner(r: State, st: State) {
    && |r.live| == |st.live| && r.series == st.series
    && (forall s, k :: 0 <= s < |r.live| && k in r.live[s] ==> k in st.live[s] && r.live[s][k] == st.live[s][k])
  }

  lemma ThinnerKeeps(r: State, st: State)
    requires Shape(st) && Thinner(r, st) && |r.views| == STORES
    ensures Shape(r)
  {
  }

  lemma SweptKeeps(cfg: Config, st: State, now: int)
    requires Inv(cfg, st)
    ensures Shape(Sweep(cfg, st, now)) && Capped(cfg, Sweep(cfg, st, now))
  {
    var r, cutoff := Sweep(cfg, st, now), now - cfg.ttl;
    forall s | 0 <= s < STORES
      ensures WithinCap(cfg, r.live[s])
    {
      SweptWithinCap(cfg, st.live[s], st.series[s], cutoff);
    }
    ThinnerKeeps(r, st);
  }

  lemma SweepKeeps(cfg: Config, st: State, now: int)
    requires Inv(cfg, st)
    ensures Inv(cfg, MaybeSweep(cfg, st, now))
  {
    SweptKeeps(cfg, st, now);
    PublishKeeps(cfg, Sweep(cfg, st, now));
  }

  /** A label may be added if it is new and there is room, or if it is the overflow. */
  predicate Room(cfg: Config, m: map<Label, Sid>, k: Label) {
    k !in m && (cfg.maxSeries > 0 && k != cfg.overflow ==> |m| < cfg.maxSeries)
  }

  lemma AddedKeeps(cfg: Config, st: State, s: Store, k: Label, now: int)
    requires Inv(cfg, st) && s < STORES && Room(cfg, st.live[s], k)
    ensures Shape(Added(st, s, k, now)) && InViews(Added(st, s, k, now)) && Capped(cfg, Added(st, s, k, now))
  {
  }

  lemma AddedFullViews(cfg: Config, st: State, s: Store, k: Label, now: int)
    requires Inv(cfg, st) && s < STORES && Room(cfg, st.live[s], k)
    ensures FullViews(cfg, Added(st, s, k, now))
  {
    if cfg.maxSeries > 0 && |st.views[s]| >= cfg.maxSeries && cfg.overflow in st.views[s] {
      assert st.views[s] == st.live[s];
    }
  }

  lemma InsertKeeps(cfg: Config, st: State, s: Store, k: Label, now: int)
    requires Inv(cfg, st) && s < STORES && Room(cfg, st.live[s], k)
    ensures Inv(cfg, Insert(st, s, k, now).st)
  {
    var mid := Added(st, s, k, now);
    AddedKeeps(cfg, st, s, k, now);
    AddedFullViews(cfg, st, s, k, now);
    TotalUpdate(st.live, s, k, |st.series[s]|);
    PublishKeeps(cfg, mid);
  }

  // ---------------------------------------------------------------- one request

  /** Where a request ends up: its own series, or the overflow series of a full store;
      live in its store either way, so the next scrape sees it. */
  predicate Lands(cfg: Config, st: State, r: Found, s: Store, k: Label)
    requires s < |st.live| && s < |r.st.live| && s < |r.st.series|
  {
    var m := r.st.live[s];
    0 <= r.sid < |r.st.series[s]| &&
    if k in m && m[k] == r.sid then true
    else cfg.overflow in m && m[cfg.overflow] == r.sid && k !in st.live[s] && cfg.maxSeries > 0 && |m| >= cfg.maxSeries
  }

  lemma LockedKeeps(cfg: Config, st: State, s: Store, k: Label, now: int)
    requires Inv(cfg, st) && s < STORES
    ensures Inv(cfg, Locked(cfg, st, s, k, now).st)
  {
    if k in st.live[s] {
      StampKeeps(cfg, st, s, st.live[s][k], now);
    } else if Folds(cfg, st, |st.live[s]|, now) && cfg.overflow in st.live[s] {
      StampKeeps(cfg, st, s, st.live[s][cfg.overflow], now);
    } else {
      var w := MaybeSweep(cfg, st, now);
      SweepKeeps(cfg, st, now);
      assert forall j :: j in w.live[s] ==> j in st.live[s];
      var key := if cfg.maxSeries > 0 && |w.live[s]| >= cfg.maxSeries then cfg.overflow else k;
      if key in w.live[s] {
        StampKeeps(cfg, w, s, w.live[s][key], now);
      } else {
        InsertKeeps(cfg, w, s, key, now);
      }
    }
  }

  lemma InsertLands(cfg: Config, st: State, w: State, s: Store, k: Label, now: int)
    requires s < |st.live| == |w.live| == |w.series| && k !in st.live[s] && k !in w.live[s]
    ensures |Insert(w, s, k, now).st.live| == |Insert(w, s, k, now).st.series| == |w.live| && Lands(cfg, st, Insert(w, s, k, now), s, k)
  {
  }

  lemma OverflowLands(cfg: Config, st: State, w: State, s: Store, k: Label, now: int)
    requires s < |st.live| == |w.live| == |w.series| && k !in st.live[s] && cfg.overflow !in w.live[s]
    requires cfg.maxSeries > 0 && |w.live[s]| >= cfg.maxSeries
    ensures |Insert(w, s, cfg.overflow, now).st.live| == |Insert(w, s, cfg.overflow, now).st.series| == |w.live| && Lands(cfg, st, Insert(w, s, cfg.overflow, now), s, k)
  {
    var m := w.live[s][cfg.overflow := |w.series[s]|];
    assert m.Keys == w.live[s].Keys + {cfg.overflow};
    assert |m| == |m.Keys| && |w.live[s]| == |w.live[s].Keys|;
  }

  /** A label is folded into the overflow series only when its store is full. */
  lemma FoldsOnlyWhenFull(cfg: Config, st: State, s: Store, k: Label, now: int)
    requires Inv(cfg, st) && s < STORES
    ensures |Locked(cfg, st, s, k, now).st.live| == |Locked(cfg, st, s, k, now).st.series| == STORES
    ensures Lands(cfg, st, Locked(cfg, st, s, k, now), s, k)
  {
    if k !in st.live[s] && !(Folds(cfg, st, |st.live[s]|, now) && cfg.overflow in st.live[s]) {
      var w := MaybeSweep(cfg, st, now);
      SweepKeeps(cfg, st, now);
      assert k !in w.live[s];
      if cfg.maxSeries > 0 && |w.live[s]| >= cfg.maxSeries {
        if cfg.overflow !in w.live[s] {
          OverflowLands(cfg, st, w, s, k, now);
        }
      } else {
        InsertLands(cfg, st, w, s, k, now);
      }
    }
  }

  lemma HitKeeps(cfg: Config, st: State, s: Store, sid: Sid)
    requires Inv(cfg, st) && s < STORES && 0 <= sid < |st.series[s]|
    ensures Inv(cfg, Hit(st, s, sid))
  {
  }

}
