/** Requests of the metrics middleware. A request loads the views once and makes its
    lookups on what it loaded, all at one clock reading. */
module MetricsRequests {
  import opened Metrics

  datatype Item = Item(store: Store, key: Label)
  datatype Request = Request(now: int, items: seq<Item>)

  const COUNTERS: Store := 0
  const DURATIONS: Store := 1
  const BYTES: Store := 2
  const HISTOGRAMS: Store := 3

  /** The middleware: request counter, duration, histogram and, for a body, its size. */
  function Middleware(counterKey: Label, durationKey: Label, body: bool, now: int): Request {
    Request(now, [Item(COUNTERS, counterKey), Item(DURATIONS, durationKey), Item(HISTOGRAMS, durationKey)]
      + if body then [Item(BYTES, durationKey)] else [])
  }

  function Observation(durationKey: Label, now: int): Request { Request(now, [Item(HISTOGRAMS, durationKey)]) }

  /** No store is asked twice in one request. */
  predicate WellFormed(r: Request) {
    && (forall i :: 0 <= i < |r.items| ==> r.items[i].store < STORES)
    && (forall i, j :: 0 <= i < j < |r.items| ==> r.items[i].store != r.items[j].store)
  }

  /** Series are only ever added. */
  predicate Extends(st: State, after: State) {
    && |st.series| == |after.series|
    && forall t :: 0 <= t < |st.series| ==> |st.series[t]| <= |after.series[t]|
  }

  /** All but one store. */
  datatype Rest = Rest(lastSweep: int, live: seq<map<Label, Sid>>, series: seq<seq<Series>>)

  function Others(st: State, s: Store): Rest
    requires s < |st.live| == |st.series|
  {
    Rest(st.lastSweep, st.live[s := map[]], st.series[s := []])
  }

  lemma OthersAt(a: State, b: State, s: Store, t: Store)
    requires s < |a.live| == |a.series| && s < |b.live| == |b.series| && Others(a, s) == Others(b, s)
    ensures a.lastSweep == b.lastSweep && |a.live| == |b.live|
    ensures t != s && t < |a.live| ==> a.live[t] == b.live[t] && a.series[t] == b.series[t]
  {
    if t != s && t < |a.live| {
      assert a.live[s := map[]][t] == b.live[s := map[]][t];
      assert a.series[s := []][t] == b.series[s := []][t];
    }
  }

  /** Nothing but store s has changed, and its series only grew. */
  predicate Aside(st: State, after: State, s: Store) {
    && s < |st.live| == |st.series| && |after.live| == |after.series| == |st.live|
    && Others(after, s) == Others(st, s) && |st.series[s]| <= |after.series[s]|
  }

  lemma StampAside(cfg: Config, st: State, s: Store, sid: Sid, now: int)
    requires s < |st.live| == |st.series| && 0 <= sid < |st.series[s]|
    ensures Aside(st, Stamp(st, s, sid, now), s) && Aside(st, Touch(cfg, st, s, sid, now), s)
  {
    assert Stamp(st, s, sid, now).series[s := []] == st.series[s := []];
  }

  lemma HitAside(st: State, s: Store, sid: Sid)
    requires s < |st.live| == |st.series| && 0 <= sid < |st.series[s]|
    ensures Aside(st, Hit(st, s, sid), s)
  {
    assert Hit(st, s, sid).series[s := []] == st.series[s := []];
  }

  lemma InsertAside(st: State, s: Store, k: Label, now: int)
    requires s < |st.live| == |st.series|
    ensures Aside(st, Insert(st, s, k, now).st, s)
  {
    assert Insert(st, s, k, now).st.series[s := []] == st.series[s := []];
    assert Insert(st, s, k, now).st.live[s := map[]] == st.live[s := map[]];
  }

  lemma AsideExtends(st: State, after: State, s: Store)
    requires Aside(st, after, s)
    ensures Extends(st, after)
  {
    forall t | 0 <= t < |st.series|
      ensures |st.series[t]| <= |after.series[t]|
    {
      OthersAt(st, after, s, t);
    }
  }

  /** What a locked lookup starts from: the state, or the swept state on a miss. */
  function Prepared(cfg: Config, st: State, s: Store, k: Label, now: int): State
    requires s < |st.live| == |st.series|
  {
    if k in st.live[s] then st else MaybeSweep(cfg, st, now)
  }

  lemma LockedAside(cfg: Config, st: State, s: Store, k: Label, now: int)
    requires Inv(cfg, st) && s < STORES
    ensures Aside(Prepared(cfg, st, s, k, now), Locked(cfg, st, s, k, now).st, s)
  {
    if k in st.live[s] {
      StampAside(cfg, st, s, st.live[s][k], now);
    } else if Folds(cfg, st, |st.live[s]|, now) && cfg.overflow in st.live[s] {
      StampAside(cfg, st, s, st.live[s][cfg.overflow], now);
    } else {
      var w := MaybeSweep(cfg, st, now);
      SweepKeeps(cfg, st, now);
      var key := if cfg.maxSeries > 0 && |w.live[s]| >= cfg.maxSeries then cfg.overflow else k;
      if key in w.live[s] {
        StampAside(cfg, w, s, w.live[s][key], now);
      } else {
        InsertAside(w, s, key, now);
      }
    }
  }

  lemma LockedExtends(cfg: Config, st: State, s: Store, k: Label, now: int)
    requires Inv(cfg, st) && s < STORES
    ensures Extends(st, Locked(cfg, st, s, k, now).st)
  {
    LockedAside(cfg, st, s, k, now);
    AsideExtends(Prepared(cfg, st, s, k, now), Locked(cfg, st, s, k, now).st, s);
  }

  lemma LookupKeeps(cfg: Config, st: State, view: map<Label, Sid>, s: Store, k: Label, now: int)
    requires Inv(cfg, st) && s < STORES && Belongs(st, view, s)
    ensures var f := Lookup(cfg, st, view, s, k, now); Inv(cfg, f.st) && 0 <= f.sid < |f.st.series[s]| && Extends(st, f.st)
  {
    if k in view {
      StampKeeps(cfg, st, s, view[k], now);
    } else if Folds(cfg, st, |view|, now) && cfg.overflow in view {
      StampKeeps(cfg, st, s, view[cfg.overflow], now);
    } else {
      LockedKeeps(cfg, st, s, k, now);
      LockedExtends(cfg, st, s, k, now);
      FoldsOnlyWhenFull(cfg, st, s, k, now);
    }
  }

  /** One lookup on a view of any age, and the count that follows it. */
  ghost function Step(cfg: Config, st: State, view: map<Label, Sid>, it: Item, now: int): (f: Found)
    requires Inv(cfg, st) && it.store < STORES && Belongs(st, view, it.store)
    ensures Inv(cfg, f.st) && 0 <= f.sid < |f.st.series[it.store]| && Extends(st, f.st)
  {
    LookupKeeps(cfg, st, view, it.store, it.key, now);
    var f := Lookup(cfg, st, view, it.store, it.key, now);
    HitKeeps(cfg, f.st, it.store, f.sid);
    Found(Hit(f.st, it.store, f.sid), f.sid)
  }

  ghost function LockedStep(cfg: Config, st: State, it: Item, now: int): (f: Found)
    requires Inv(cfg, st) && it.store < STORES
    ensures Inv(cfg, f.st) && 0 <= f.sid < |f.st.series[it.store]|
  {
    LockedKeeps(cfg, st, it.store, it.key, now);
    FoldsOnlyWhenFull(cfg, st, it.store, it.key, now);
    var f := Locked(cfg, st, it.store, it.key, now);
    HitKeeps(cfg, f.st, it.store, f.sid);
    Found(Hit(f.st, it.store, f.sid), f.sid)
  }

  lemma StillBelongs(st: State, after: State, view: map<Label, Sid>, s: Store)
    requires s < |st.series| && Belongs(st, view, s) && Extends(st, after)
    ensures Belongs(after, view, s)
  {
  }

  // ---------------------------------------------------------------- in the middle of a request

  /** The lookup finds its label neither in the view nor in the live map, at a time
      when a sweep has come due. */
  predicate Sweeps(cfg: Config, st: State, view: map<Label, Sid>, it: Item, now: int)
    requires it.store < |st.live|
  {
    SweepDue(cfg, st, now) && it.key !in view && it.key !in st.live[it.store]
  }

  /** What a lookup starts from. */
  function Base(cfg: Config, st: State, view: map<Label, Sid>, it: Item, now: int): State
    requires it.store < |st.live| == |st.series|
  {
    if Sweeps(cfg, st, view, it, now) then MaybeSweep(cfg, st, now) else st
  }

  lemma LookupAside(cfg: Config, st: State, view: map<Label, Sid>, it: Item, now: int)
    requires Inv(cfg, st) && it.store < STORES && Belongs(st, view, it.store)
    ensures Aside(Base(cfg, st, view, it, now), Lookup(cfg, st, view, it.store, it.key, now).st, it.store)
  {
    var s, k := it.store, it.key;
    if k in view {
      StampAside(cfg, st, s, view[k], now);
    } else if Folds(cfg, st, |view|, now) && cfg.overflow in view {
      StampAside(cfg, st, s, view[cfg.overflow], now);
    } else {
      LockedAside(cfg, st, s, k, now);
    }
  }

  /** What a lookup does to the other stores: nothing, or the sweep. */
  lemma StepAside(cfg: Config, st: State, view: map<Label, Sid>, it: Item, now: int)
    requires Inv(cfg, st) && it.store < STORES && Belongs(st, view, it.store)
    ensures Aside(Base(cfg, st, view, it, now), Step(cfg, st, view, it, now).st, it.store)
  {
    LookupKeeps(cfg, st, view, it.store, it.key, now);
    LookupAside(cfg, st, view, it, now);
    var g := Lookup(cfg, st, view, it.store, it.key, now);
    HitAside(g.st, it.store, g.sid);
  }

  // ---------------------------------------------------------------- when a captured view goes stale

  /** By the n-th lookup of the request its own sweep has run: one was due when the
      request began, and an earlier label was in no live series. */
  predicate SweptBy(cfg: Config, st: State, r: Request, n: nat)
    requires |st.live| == STORES && WellFormed(r) && n <= |r.items|
  {
    SweepDue(cfg, st, r.now) && exists j :: 0 <= j < n && r.items[j].key !in st.live[r.items[j].store]
  }

  /** A store that the first n lookups of the request do not ask. */
  predicate Unasked(r: Request, n: nat, s: Store)
    requires n <= |r.items|
  {
    s < STORES && forall j :: 0 <= j < n ==> r.items[j].store != s
  }

  /** What a lookup in one store depends on. */
  datatype Part = Part(lastSweep: int, live: map<Label, Sid>, series: seq<Series>)

  function PartOf(st: State, s: Store): Part
    requires s < |st.live| == |st.series|
  {
    Part(st.lastSweep, st.live[s], st.series[s])
  }

  /** What is left for a lookup in a store that the request has not asked yet. */
  function Left(cfg: Config, st: State, r: Request, n: nat, s: Store): Part
    requires |st.live| == |st.series| == STORES && WellFormed(r) && n <= |r.items| && s < STORES
  {
    if SweptBy(cfg, st, r, n) then Part(r.now, Swept(st.live[s], st.series[s], r.now - cfg.ttl), st.series[s])
    else PartOf(st, s)
  }

  lemma SweptByNext(cfg: Config, st: State, r: Request, n: nat)
    requires |st.live| == STORES && WellFormed(r) && n < |r.items|
    ensures SweptBy(cfg, st, r, n + 1) <==>
              SweptBy(cfg, st, r, n) || (SweepDue(cfg, st, r.now) && r.items[n].key !in st.live[r.items[n].store])
  {
  }

  /** The lookup sweeps exactly if it is the first to miss at a due time. */
  lemma SweepsOnce(cfg: Config, st: State, mid: State, r: Request, n: nat)
    requires Inv(cfg, st) && WellFormed(r) && n < |r.items| && |mid.live| == |mid.series| == STORES
    requires PartOf(mid, r.items[n].store) == Left(cfg, st, r, n, r.items[n].store)
    ensures Sweeps(cfg, mid, st.views[r.items[n].store], r.items[n], r.now) <==> SweptBy(cfg, st, r, n + 1) && !SweptBy(cfg, st, r, n)
  {
    SweptByNext(cfg, st, r, n);
  }

  /** A lookup as the other stores see it. */
  predicate Moves(cfg: Config, st: State, r: Request, n: nat, mid: State, after: State)
    requires Inv(cfg, st) && WellFormed(r) && n < |r.items|
  {
    && |mid.live| == STORES && |mid.series| == STORES
    && Aside(Base(cfg, mid, st.views[r.items[n].store], r.items[n], r.now), after, r.items[n].store)
  }

  lemma LeftStep(cfg: Config, st: State, mid: State, after: State, r: Request, n: nat, s: Store)
    requires Inv(cfg, st) && WellFormed(r) && n < |r.items| && s < STORES && s != r.items[n].store
    requires Moves(cfg, st, r, n, mid, after)
    requires PartOf(mid, s) == Left(cfg, st, r, n, s)
    requires PartOf(mid, r.items[n].store) == Left(cfg, st, r, n, r.items[n].store)
    ensures PartOf(after, s) == Left(cfg, st, r, n + 1, s)
  {
    SweepsOnce(cfg, st, mid, r, n);
    SweptByNext(cfg, st, r, n);
    OthersAt(Base(cfg, mid, st.views[r.items[n].store], r.items[n], r.now), after, r.items[n].store, s);
  }

  /** The states of a request, as the stores it has not asked yet see them. */
  predicate Trail(cfg: Config, st: State, r: Request, mids: seq<State>)
    requires Inv(cfg, st) && WellFormed(r)
  {
    && 0 < |mids| <= |r.items| + 1 && mids[0] == st
    && forall n :: 0 <= n < |mids| - 1 ==> Moves(cfg, st, r, n, mids[n], mids[n + 1])
  }

  /** In the middle of a request: a store it has not asked yet is as it was, or swept. */
  lemma {:induction false} TrailLeaves(cfg: Config, st: State, r: Request, mids: seq<State>, n: nat, s: Store)
    requires Inv(cfg, st) && WellFormed(r) && Trail(cfg, st, r, mids) && n < |mids| && Unasked(r, n, s)
    ensures |mids[n].live| == |mids[n].series| == STORES && PartOf(mids[n], s) == Left(cfg, st, r, n, s)
    decreases n
  {
    if n > 0 {
      TrailLeaves(cfg, st, r, mids, n - 1, s);
      TrailLeaves(cfg, st, r, mids, n - 1, r.items[n - 1].store);
      assert Moves(cfg, st, r, n - 1, mids[n - 1], mids[n]);
      LeftStep(cfg, st, mids[n - 1], mids[n], r, n - 1, s);
    }
  }

  // ---------------------------------------------------------------- the exact condition

  predicate Idle(cfg: Config, st: State, s: Store, sid: Sid, now: int)
    requires s < |st.series| && 0 <= sid < |st.series[s]|
  {
    st.series[s][sid].lastSeen < now - cfg.ttl
  }

  /** A full view answers an unknown label with its overflow series. */
  predicate FullView(cfg: Config, view: map<Label, Sid>) {
    cfg.maxSeries > 0 && |view| >= cfg.maxSeries && cfg.overflow in view
  }

  /** A lookup of k in store s after a sweep would be handed a series that the sweep
      took away, or fold although the sweep made room. */
  predicate Wrong(cfg: Config, st: State, s: Store, k: Label, now: int)
    requires Inv(cfg, st) && s < STORES
  {
    var view := st.views[s];
    if k in view then Idle(cfg, st, s, view[k], now)
    else
      && FullView(cfg, view)
      && (Idle(cfg, st, s, view[cfg.overflow], now) || |Swept(st.live[s], st.series[s], now - cfg.ttl)| < cfg.maxSeries)
  }

  /** All of it is known when the request begins. */
  predicate Stale(cfg: Config, st: State, r: Request, n: nat)
    requires Inv(cfg, st) && WellFormed(r) && n < |r.items|
  {
    SweptBy(cfg, st, r, n) && Wrong(cfg, st, r.items[n].store, r.items[n].key, r.now)
  }

  /** Handed out before the sweep of this request, the view still serves. */
  lemma UnsweptAgrees(cfg: Config, st: State, mid: State, s: Store, k: Label, now: int)
    requires Inv(cfg, st) && Inv(cfg, mid) && s < STORES && Belongs(mid, st.views[s], s)
    requires PartOf(mid, s) == PartOf(st, s)
    ensures Lookup(cfg, mid, st.views[s], s, k, now) == Locked(cfg, mid, s, k, now)
  {
  }

  /** After that sweep a tracked label is answered rightly exactly if its series stayed. */
  lemma SweptTracked(cfg: Config, st: State, mid: State, s: Store, k: Label, now: int)
    requires Inv(cfg, st) && Inv(cfg, mid) && s < STORES && Belongs(mid, st.views[s], s) && k in st.views[s]
    requires cfg.ttl > 0 && PartOf(mid, s) == Part(now, Swept(st.live[s], st.series[s], now - cfg.ttl), st.series[s])
    ensures var f, g := Lookup(cfg, mid, st.views[s], s, k, now), Locked(cfg, mid, s, k, now);
            if Idle(cfg, st, s, st.views[s][k], now) then f.sid != g.sid else f == g
  {
  }

  /** And an untracked one exactly if the overflow series stayed and the store is full. */
  lemma SweptUntracked(cfg: Config, st: State, mid: State, s: Store, k: Label, now: int)
    requires Inv(cfg, st) && Inv(cfg, mid) && s < STORES && Belongs(mid, st.views[s], s)
    requires k !in st.views[s] && FullView(cfg, st.views[s])
    requires cfg.ttl > 0 && PartOf(mid, s) == Part(now, Swept(st.live[s], st.series[s], now - cfg.ttl), st.series[s])
    ensures var f, g := Lookup(cfg, mid, st.views[s], s, k, now), Locked(cfg, mid, s, k, now);
            if Idle(cfg, st, s, st.views[s][cfg.overflow], now) || |mid.live[s]| < cfg.maxSeries then f.sid != g.sid else f == g
  {
    assert st.views[s] == st.live[s];
  }

  lemma SweptAgrees(cfg: Config, st: State, mid: State, s: Store, k: Label, now: int)
    requires Inv(cfg, st) && Inv(cfg, mid) && s < STORES && Belongs(mid, st.views[s], s)
    requires cfg.ttl > 0 && PartOf(mid, s) == Part(now, Swept(st.live[s], st.series[s], now - cfg.ttl), st.series[s])
    ensures var f, g := Lookup(cfg, mid, st.views[s], s, k, now), Locked(cfg, mid, s, k, now);
            if Wrong(cfg, st, s, k, now) then f.sid != g.sid else f == g
  {
    if k in st.views[s] {
      SweptTracked(cfg, st, mid, s, k, now);
    } else if FullView(cfg, st.views[s]) {
      SweptUntracked(cfg, st, mid, s, k, now);
    }
  }

  lemma StaleAt(cfg: Config, st: State, mid: State, r: Request, n: nat)
    requires Inv(cfg, st) && Inv(cfg, mid) && WellFormed(r) && n < |r.items|
    requires PartOf(mid, r.items[n].store) == Left(cfg, st, r, n, r.items[n].store)
    requires Belongs(mid, st.views[r.items[n].store], r.items[n].store)
    ensures var s, k := r.items[n].store, r.items[n].key;
            var f, g := Lookup(cfg, mid, st.views[s], s, k, r.now), Locked(cfg, mid, s, k, r.now);
            if Stale(cfg, st, r, n) then f.sid != g.sid else f == g
  {
    if SweptBy(cfg, st, r, n) {
      SweptAgrees(cfg, st, mid, r.items[n].store, r.items[n].key, r.now);
    } else {
      UnsweptAgrees(cfg, st, mid, r.items[n].store, r.items[n].key, r.now);
    }
  }

  // ---------------------------------------------------------------- a whole request

  /** The states a request went through and the series it was given. */
  datatype History = History(states: seq<State>, sids: seq<Sid>)

  /** The n-th lookup of a request that loaded the views in st. */
  ghost predicate Did(cfg: Config, st: State, r: Request, n: nat, mid: State, f: Found)
    requires Inv(cfg, st) && WellFormed(r) && n < |r.items|
  {
    && Inv(cfg, mid) && Belongs(mid, st.views[r.items[n].store], r.items[n].store)
    && f == Step(cfg, mid, st.views[r.items[n].store], r.items[n], r.now)
  }

  ghost predicate Served(cfg: Config, st: State, r: Request, h: History)
    requires Inv(cfg, st) && WellFormed(r)
  {
    && |h.states| == |h.sids| + 1 && |h.sids| <= |r.items| && h.states[0] == st
    && forall n :: 0 <= n < |h.sids| ==> Did(cfg, st, r, n, h.states[n], Found(h.states[n + 1], h.sids[n]))
  }

  /** The same with the lock taken for every lookup. */
  ghost predicate DidLocked(cfg: Config, r: Request, n: nat, mid: State, f: Found)
    requires WellFormed(r) && n < |r.items|
  {
    Inv(cfg, mid) && f == LockedStep(cfg, mid, r.items[n], r.now)
  }

  ghost predicate ServedLocked(cfg: Config, st: State, r: Request, h: History)
    requires Inv(cfg, st) && WellFormed(r)
  {
    && |h.states| == |h.sids| + 1 && |h.sids| <= |r.items| && h.states[0] == st
    && forall n :: 0 <= n < |h.sids| ==> DidLocked(cfg, r, n, h.states[n], Found(h.states[n + 1], h.sids[n]))
  }

  lemma DidMoves(cfg: Config, st: State, r: Request, n: nat, mid: State, f: Found)
    requires Inv(cfg, st) && WellFormed(r) && n < |r.items| && Did(cfg, st, r, n, mid, f)
    ensures Moves(cfg, st, r, n, mid, f.st)
  {
    StepAside(cfg, mid, st.views[r.items[n].store], r.items[n], r.now);
  }

  lemma ServedTrail(cfg: Config, st: State, r: Request, h: History)
    requires Inv(cfg, st) && WellFormed(r) && Served(cfg, st, r, h)
    ensures Trail(cfg, st, r, h.states)
  {
    forall n | 0 <= n < |h.sids|
      ensures Moves(cfg, st, r, n, h.states[n], h.states[n + 1])
    {
      DidMoves(cfg, st, r, n, h.states[n], Found(h.states[n + 1], h.sids[n]));
    }
  }

  lemma StaleStep(cfg: Config, st: State, mid: State, r: Request, n: nat, f: Found)
    requires Inv(cfg, st) && WellFormed(r) && n < |r.items| && Did(cfg, st, r, n, mid, f)
    requires PartOf(mid, r.items[n].store) == Left(cfg, st, r, n, r.items[n].store)
    ensures var g := LockedStep(cfg, mid, r.items[n], r.now);
            if Stale(cfg, st, r, n) then f.sid != g.sid else f == g
  {
    StaleAt(cfg, st, mid, r, n);
  }

  /** The exact condition for one lookup: it gets another series than the lock would
      have given it at that moment if and only if it is stale. */
  lemma StaleIff(cfg: Config, st: State, r: Request, h: History, n: nat)
    requires Inv(cfg, st) && WellFormed(r) && Served(cfg, st, r, h) && n < |h.sids|
    ensures Inv(cfg, h.states[n])
    ensures var f, g := Found(h.states[n + 1], h.sids[n]), LockedStep(cfg, h.states[n], r.items[n], r.now);
            if Stale(cfg, st, r, n) then f.sid != g.sid else f == g
  {
    ServedTrail(cfg, st, r, h);
    TrailLeaves(cfg, st, r, h.states, n, r.items[n].store);
    assert Did(cfg, st, r, n, h.states[n], Found(h.states[n + 1], h.sids[n]));
    StaleStep(cfg, st, h.states[n], r, n, Found(h.states[n + 1], h.sids[n]));
  }

  lemma NextAgrees(cfg: Config, st: State, r: Request, h: History, l: History, n: nat)
    requires Inv(cfg, st) && WellFormed(r) && Served(cfg, st, r, h) && ServedLocked(cfg, st, r, l)
    requires n < |h.sids| && n < |l.sids| && h.states[n] == l.states[n]
    ensures h.sids[n] == l.sids[n] <==> !Stale(cfg, st, r, n)
    ensures !Stale(cfg, st, r, n) ==> h.states[n + 1] == l.states[n + 1]
  {
    StaleIff(cfg, st, r, h, n);
    assert DidLocked(cfg, r, n, l.states[n], Found(l.states[n + 1], l.sids[n]));
  }

  /** None of the first n lookups is stale. */
  predicate Fresh(cfg: Config, st: State, r: Request, n: nat)
    requires Inv(cfg, st) && WellFormed(r) && n <= |r.items|
  {
    n == 0 || (Fresh(cfg, st, r, n - 1) && !Stale(cfg, st, r, n - 1))
  }

  lemma PrefixNext(a: seq<Sid>, b: seq<Sid>, n: nat)
    requires n < |a| && n < |b|
    ensures a[..n + 1] == b[..n + 1] <==> a[..n] == b[..n] && a[n] == b[n]
  {
    assert a[..n + 1] == a[..n] + [a[n]] && b[..n + 1] == b[..n] + [b[n]];
  }

  /** The exact condition for a request: its lookups get what the lock would have
      given them if and only if none is stale, and then it leaves the same state. */
  lemma {:induction false} RequestIff(cfg: Config, st: State, r: Request, h: History, l: History, n: nat)
    requires Inv(cfg, st) && WellFormed(r) && Served(cfg, st, r, h) && ServedLocked(cfg, st, r, l)
    requires n <= |h.sids| && n <= |l.sids|
    ensures h.sids[..n] == l.sids[..n] <==> Fresh(cfg, st, r, n)
    ensures Fresh(cfg, st, r, n) ==> h.states[n] == l.states[n]
  {
    if n > 0 {
      RequestIff(cfg, st, r, h, l, n - 1);
      PrefixNext(h.sids, l.sids, n - 1);
      if Fresh(cfg, st, r, n - 1) {
        NextAgrees(cfg, st, r, h, l, n - 1);
      }
    }
  }

  // ---------------------------------------------------------------- counted where nobody looks

  /** A lookup of k after a sweep would be handed a series that the sweep took away. */
  predicate Gone(cfg: Config, st: State, s: Store, k: Label, now: int)
    requires Inv(cfg, st) && s < STORES
  {
    var view := st.views[s];
    if k in view then Idle(cfg, st, s, view[k], now) else FullView(cfg, view) && Idle(cfg, st, s, view[cfg.overflow], now)
  }

  predicate Lost(cfg: Config, st: State, r: Request, n: nat)
    requires Inv(cfg, st) && WellFormed(r) && n < |r.items|
  {
    SweptBy(cfg, st, r, n) && Gone(cfg, st, r.items[n].store, r.items[n].key, r.now)
  }

  /** The next scrape sees the series. */
  ghost predicate Live(p: Part, sid: Sid) { exists k :: k in p.live && p.live[k] == sid }

  /** Live, and safe from a sweep at this clock reading. */
  ghost predicate Safe(cfg: Config, p: Part, sid: Sid, now: int) {
    Live(p, sid) && 0 <= sid < |p.series| && (cfg.ttl > 0 ==> p.series[sid].lastSeen >= now)
  }

  lemma LockedIsSeen(cfg: Config, st: State, s: Store, k: Label, now: int)
    requires Inv(cfg, st) && s < STORES
    ensures var f := Locked(cfg, st, s, k, now);
            |f.st.series| == STORES && 0 <= f.sid < |f.st.series[s]| && (cfg.ttl > 0 ==> f.st.series[s][f.sid].lastSeen == now)
  {
    SweepKeeps(cfg, st, now);
  }

  lemma LockedIsSafe(cfg: Config, st: State, s: Store, k: Label, now: int)
    requires Inv(cfg, st) && s < STORES
    ensures var f := Locked(cfg, st, s, k, now);
            |f.st.live| == |f.st.series| == STORES && Safe(cfg, PartOf(f.st, s), f.sid, now)
  {
    var f := Locked(cfg, st, s, k, now);
    FoldsOnlyWhenFull(cfg, st, s, k, now);
    LockedIsSeen(cfg, st, s, k, now);
    var key := if k in f.st.live[s] && f.st.live[s][k] == f.sid then k else cfg.overflow;
    assert key in PartOf(f.st, s).live;
  }

  /** After a sweep: handed out dead, or live and fresh. */
  lemma GoneAt(cfg: Config, st: State, mid: State, s: Store, k: Label, now: int)
    requires Inv(cfg, st) && Inv(cfg, mid) && s < STORES && Belongs(mid, st.views[s], s)
    requires cfg.ttl > 0 && PartOf(mid, s) == Part(now, Swept(st.live[s], st.series[s], now - cfg.ttl), st.series[s])
    requires Wrong(cfg, st, s, k, now)
    ensures var f := Lookup(cfg, mid, st.views[s], s, k, now);
            && |f.st.live| == |f.st.series| == STORES
            && if Gone(cfg, st, s, k, now) then !Live(PartOf(f.st, s), f.sid) else Safe(cfg, PartOf(f.st, s), f.sid, now)
  {
    var f := Lookup(cfg, mid, st.views[s], s, k, now);
    if Gone(cfg, st, s, k, now) {
      forall j | j in mid.live[s]
        ensures mid.live[s][j] != f.sid
      {
        assert st.series[s][mid.live[s][j]].lastSeen >= now - cfg.ttl;
      }
    } else {
      assert cfg.overflow in PartOf(f.st, s).live;
    }
  }

  lemma HitKeepsSafe(cfg: Config, st: State, s: Store, sid: Sid, now: int)
    requires s < |st.live| == |st.series| && 0 <= sid < |st.series[s]|
    ensures Live(PartOf(Hit(st, s, sid), s), sid) <==> Live(PartOf(st, s), sid)
    ensures Safe(cfg, PartOf(st, s), sid, now) ==> Safe(cfg, PartOf(Hit(st, s, sid), s), sid, now)
  {
  }

  lemma LookupLost(cfg: Config, st: State, mid: State, r: Request, n: nat)
    requires Inv(cfg, st) && Inv(cfg, mid) && WellFormed(r) && n < |r.items|
    requires Belongs(mid, st.views[r.items[n].store], r.items[n].store)
    requires PartOf(mid, r.items[n].store) == Left(cfg, st, r, n, r.items[n].store)
    ensures var s := r.items[n].store;
            var f := Lookup(cfg, mid, st.views[s], s, r.items[n].key, r.now);
            && |f.st.live| == |f.st.series| == STORES
            && if Lost(cfg, st, r, n) then !Live(PartOf(f.st, s), f.sid) else Safe(cfg, PartOf(f.st, s), f.sid, r.now)
  {
    var s, k := r.items[n].store, r.items[n].key;
    if Stale(cfg, st, r, n) {
      GoneAt(cfg, st, mid, s, k, r.now);
    } else {
      StaleAt(cfg, st, mid, r, n);
      LockedIsSafe(cfg, mid, s, k, r.now);
    }
  }

  lemma DidLost(cfg: Config, st: State, mid: State, r: Request, n: nat, f: Found)
    requires Inv(cfg, st) && WellFormed(r) && n < |r.items| && Did(cfg, st, r, n, mid, f)
    requires PartOf(mid, r.items[n].store) == Left(cfg, st, r, n, r.items[n].store)
    ensures var p := PartOf(f.st, r.items[n].store);
            if Lost(cfg, st, r, n) then !Live(p, f.sid) else Safe(cfg, p, f.sid, r.now)
  {
    var s := r.items[n].store;
    LookupLost(cfg, st, mid, r, n);
    LookupKeeps(cfg, mid, st.views[s], s, r.items[n].key, r.now);
    var g := Lookup(cfg, mid, st.views[s], s, r.items[n].key, r.now);
    HitKeepsSafe(cfg, g.st, s, g.sid, r.now);
  }

  /** What the rest of a request may do to a store it has asked: sweep it. */
  predicate Wanes(cfg: Config, a: Part, b: Part, now: int) {
    b.series == a.series && (b.live == a.live || (cfg.ttl > 0 && b.live == Swept(a.live, a.series, now - cfg.ttl)))
  }

  lemma WanesTwice(cfg: Config, a: Part, b: Part, c: Part, now: int)
    requires Wanes(cfg, a, b, now) && Wanes(cfg, b, c, now)
    ensures Wanes(cfg, a, c, now)
  {
    var cutoff := now - cfg.ttl;
    assert Swept(Swept(a.live, a.series, cutoff), a.series, cutoff) == Swept(a.live, a.series, cutoff);
  }

  lemma WanesKeeps(cfg: Config, a: Part, b: Part, sid: Sid, now: int)
    requires Wanes(cfg, a, b, now)
    ensures Safe(cfg, a, sid, now) ==> Live(b, sid)
    ensures !Live(a, sid) ==> !Live(b, sid)
  {
    if Safe(cfg, a, sid, now) {
      var k :| k in a.live && a.live[k] == sid;
      assert k in b.live;
    }
  }

  lemma MovesWanes(cfg: Config, st: State, r: Request, n: nat, mid: State, after: State, s: Store)
    requires Inv(cfg, st) && WellFormed(r) && n < |r.items| && s < STORES && s != r.items[n].store
    requires Moves(cfg, st, r, n, mid, after)
    ensures |after.live| == |after.series| == STORES && Wanes(cfg, PartOf(mid, s), PartOf(after, s), r.now)
  {
    OthersAt(Base(cfg, mid, st.views[r.items[n].store], r.items[n], r.now), after, r.items[n].store, s);
  }

  lemma {:induction false} TrailWanes(cfg: Config, st: State, r: Request, mids: seq<State>, n: nat, m: nat)
    requires Inv(cfg, st) && WellFormed(r) && Trail(cfg, st, r, mids) && n < m < |mids|
    ensures |mids[n + 1].live| == |mids[n + 1].series| == |mids[m].live| == |mids[m].series| == STORES
    ensures Wanes(cfg, PartOf(mids[n + 1], r.items[n].store), PartOf(mids[m], r.items[n].store), r.now)
    decreases m
  {
    assert Moves(cfg, st, r, m - 1, mids[m - 1], mids[m]);
    if m > n + 1 {
      var s := r.items[n].store;
      TrailWanes(cfg, st, r, mids, n, m - 1);
      MovesWanes(cfg, st, r, m - 1, mids[m - 1], mids[m], s);
      WanesTwice(cfg, PartOf(mids[n + 1], s), PartOf(mids[m - 1], s), PartOf(mids[m], s), r.now);
    }
  }

  /** The exact condition for losing a count: when the request is over, the series the
      n-th lookup counted on is out of its map if and only if the lookup is lost. */
  lemma LostIff(cfg: Config, st: State, r: Request, h: History, n: nat)
    requires Inv(cfg, st) && WellFormed(r) && Served(cfg, st, r, h) && n < |h.sids|
    ensures var last := h.states[|h.sids|];
            |last.live| == |last.series| == STORES && (Live(PartOf(last, r.items[n].store), h.sids[n]) <==> !Lost(cfg, st, r, n))
  {
    var s := r.items[n].store;
    ServedTrail(cfg, st, r, h);
    TrailLeaves(cfg, st, r, h.states, n, s);
    assert Did(cfg, st, r, n, h.states[n], Found(h.states[n + 1], h.sids[n]));
    DidLost(cfg, st, h.states[n], r, n, Found(h.states[n + 1], h.sids[n]));
    TrailWanes(cfg, st, r, h.states, n, |h.sids|);
    WanesKeeps(cfg, PartOf(h.states[n + 1], s), PartOf(h.states[|h.sids|], s), h.sids[n], r.now);
  }
}
