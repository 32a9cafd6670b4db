/** The Rebuild / Update recursion of core/rebuild.go and core/config_service.go.

    `RebuildConfigIfDirty` calls `UpdateConfigFromSubscriptions` when an enabled subscription has no
    cached body; Update ends by calling Rebuild again.  The network, the parser and the builder are the
    fields of `Env`.  `fuel` counts the nested Updates still allowed; None means it ran out. */
module RebuildSpec {
  import opened Basics

  // ------------------------------------------------------------- the machine

  datatype Source = Source(id: string, subscription: bool, enabled: bool, url: string)

  /** A parsed state file. */
  datatype Wizard = Wizard(sources: seq<Source>, hasProxies: bool)

  datatype Parsed = Parsed(nodes: nat, text: string)

  /** The local machine: its active state file, its named snapshots (None: unparsable), the cached
      bodies by source id, the written configuration, the dirty markers, and the sweeps made so far. */
  datatype World = World(
    active: Option<Wizard>,
    saved: seq<Option<Wizard>>,
    raws: map<string, string>,
    config: Option<string>,
    cacheStale: bool,
    configStale: bool,
    sweeps: nat)

  datatype Env = Env(
    fetch: (nat, nat) -> Option<string>,                       // sweep, source index
    updateParse: (Wizard, map<string, string>) -> Option<Parsed>,
    listable: nat -> bool,                                     // sweep: can the state directory be read
    removable: (nat, string) -> bool,                          // sweep, id: can the body's file be removed
    template: bool,
    rebuildParse: (Wizard, map<string, string>) -> Option<Parsed>,
    build: (Wizard, Parsed) -> Option<string>,
    writable: bool,
    accepts: string -> bool)                                   // sing-box check

  predicate Active(src: Source) {
    src.subscription && src.enabled && src.url != ""
  }

  predicate RawIdChar(c: char) {
    'A' <= c <= 'Z' || 'a' <= c <= 'z' || '0' <= c <= '9' || c == '-' || c == '_'
  }

  predicate ValidRawId(id: string) {
    0 < |id| <= 128 && forall i | 0 <= i < |id| :: RawIdChar(id[i])
  }

  /** By code point: the ASCII letters and digits, the hyphen and the underscore. */
  predicate AsciiIdChar(code: int) {
    48 <= code <= 57 || 65 <= code <= 90 || 97 <= code <= 122 || code == 45 || code == 95
  }

  /** validateRawID accepts exactly the non-empty ids of at most 128 such characters. */
  lemma ValidRawIdIff(id: string)
    ensures ValidRawId(id) <==> id != "" && |id| <= 128 && forall c <- id :: AsciiIdChar(c as int)
  {
    assert forall c: char :: RawIdChar(c) <==> AsciiIdChar(c as int);
    if id != "" && |id| <= 128 && forall c <- id :: AsciiIdChar(c as int) {
      assert forall i | 0 <= i < |id| :: id[i] in id;
    }
  }

  /** WriteRawBody: an empty body and a bad id leave the cache as it is. */
  function WriteRaw(raws: map<string, string>, id: string, body: string): map<string, string> {
    if body == "" || !ValidRawId(id) then raws else raws[id := body]
  }

  /** One fetched source: a failed fetch keeps the old body. */
  function Refresh(raws: map<string, string>, src: Source, answer: Option<string>): map<string, string> {
    if Active(src) && answer.Some? then WriteRaw(raws, src.id, answer.value) else raws
  }

  function Sweep(env: Env, round: nat, sources: seq<Source>, raws: map<string, string>): map<string, string> {
    if sources == [] then raws
    else
      var n := |sources| - 1;
      Refresh(Sweep(env, round, sources[..n], raws), sources[n], env.fetch(round, n))
  }

  /** Ids named by a parsable state file of this machine. */
  ghost predicate Names(w: Wizard, id: string) {
    id != "" && exists i | 0 <= i < |w.sources| :: w.sources[i].id == id
  }

  ghost predicate Known(w: World, id: string) {
    || (w.active.Some? && Names(w.active.value, id))
    || (exists k | 0 <= k < |w.saved| :: w.saved[k].Some? && Names(w.saved[k].value, id))
  }

  /** DeleteOrphans: a body stays when its id is known, and when its file cannot be removed (or the cache
      directory not read).  When the state directory cannot be listed, no id is known. */
  ghost predicate Kept(env: Env, w: World, id: string) {
    (env.listable(w.sweeps) && Known(w, id)) || !env.removable(w.sweeps, id)
  }

  ghost function Collect(env: Env, w: World, raws: map<string, string>): map<string, string> {
    map id | id in raws && Kept(env, w, id) :: raws[id]
  }

  /** Positions of the enabled subscriptions without a body. */
  function Lacking(sources: seq<Source>, raws: map<string, string>): set<nat> {
    set i: nat | 0 <= i < |sources| && Active(sources[i]) && sources[i].id !in raws :: i
  }

  function Missing(w: World): set<nat> {
    if w.active.Some? then Lacking(w.active.value.sources, w.raws) else {}
  }

  /** buildBodyLookup; ReadRawBody refuses an id that cannot name a file. */
  function Bodies(sources: seq<Source>, raws: map<string, string>): map<string, string> {
    if sources == [] then map[]
    else
      var src := sources[|sources| - 1];
      var rest := Bodies(sources[..|sources| - 1], raws);
      if Active(src) && ValidRawId(src.id) && src.id in raws then rest[src.url := raws[src.id]] else rest
  }

  // ----------------------------------------------------------- the functions

  /** The body of Update up to its own call of Rebuild; the flag is false when it returned an error. */
  ghost function Fetched(env: Env, w: World): (World, bool) {
    if w.active.None? || !w.active.value.hasProxies then (w, false)
    else
      var state := w.active.value;
      var swept := w.(raws := Collect(env, w, Sweep(env, w.sweeps, state.sources, w.raws)), sweeps := w.sweeps + 1);
      match env.updateParse(state, Bodies(state.sources, swept.raws))
      case None => (swept, false)
      case Some(parsed) =>
        if parsed.nodes == 0 then (swept, false)
        else (swept.(cacheStale := false, configStale := true), true)
  }

  /** Rebuild after its snapshot step: fast path, build, write, check. */
  ghost function Write(env: Env, w: World, force: bool): (World, bool)
    requires w.active.Some?
  {
    match env.rebuildParse(w.active.value, Bodies(w.active.value.sources, w.raws))
    case None => (w, false)
    case Some(parsed) =>
      if !force && !w.cacheStale && !w.configStale then (w, true)
      else
        match env.build(w.active.value, parsed)
        case None => (w, false)
        case Some(config) =>
          if !env.writable then (w, false)
          else (w.(config := Some(config), configStale := w.configStale && !env.accepts(config)), true)
  }

  ghost function Rebuild(env: Env, w: World, forced: bool, fuel: nat): Option<(World, bool)>
    decreases fuel, 0
  {
    if w.active.None? || !env.template then Some((w, false))
    else if Missing(w) == {} then Some(Write(env, w, forced))
    else if fuel == 0 then None
    else
      match Update(env, w, fuel - 1)
      case None => None
      case Some((w', false)) => Some((w', false))
      case Some((w', true)) =>
        if w'.active.None? || Missing(w') != {} then Some((w', false)) else Some(Write(env, w', true))
  }

  ghost function Update(env: Env, w: World, fuel: nat): Option<(World, bool)>
    decreases fuel, 1
  {
    var (w', ok) := Fetched(env, w);
    if !ok then Some((w', false))
    else
      match Rebuild(env, w', false, fuel)
      case None => None
      case Some((w'', _)) => Some((w'', true))   // an error of the nested rebuild is only logged
  }

  // ------------------------------------------------- what one sweep preserves

  /** The fetch gives this source a body on disk. */
  predicate Delivers(src: Source, answer: Option<string>) {
    Active(src) && ValidRawId(src.id) && answer.Some? && answer.value != ""
  }

  /** The body a sweep leaves under an id: that of the last source delivering to it. */
  function Delivered(env: Env, round: nat, sources: seq<Source>, id: string): (r: Option<string>)
    ensures r.Some? <==> exists i | 0 <= i < |sources| :: sources[i].id == id && Delivers(sources[i], env.fetch(round, i))
    ensures r.Some? ==> id != ""
  {
    if sources == [] then None
    else
      var n := |sources| - 1;
      if sources[n].id == id && Delivers(sources[n], env.fetch(round, n)) then env.fetch(round, n)
      else
        var rest := Delivered(env, round, sources[..n], id);
        assert rest.Some? ==> exists i | 0 <= i < n :: sources[i].id == id && Delivers(sources[i], env.fetch(round, i)) by {
          if rest.Some? {
            var i :| 0 <= i < n && sources[..n][i].id == id && Delivers(sources[..n][i], env.fetch(round, i));
            assert sources[i] == sources[..n][i];
          }
        }
        assert forall i | 0 <= i < n :: sources[..n][i] == sources[i];
        rest
  }

  lemma {:induction false} SweepIs(env: Env, round: nat, sources: seq<Source>, raws: map<string, string>, id: string)
    ensures var swept := Sweep(env, round, sources, raws);
            var news := Delivered(env, round, sources, id);
            && (id in swept <==> id in raws || news.Some?)
            && (id in swept ==> swept[id] == if news.Some? then news.value else raws[id])
  {
    if sources != [] {
      SweepIs(env, round, sources[..|sources| - 1], raws, id);
    }
  }

  ghost predicate Sweeps(w: World) {
    w.active.Some? && w.active.value.hasProxies
  }

  /** Per-source resilience and the GC, exactly: an Update leaves a cached body in place, whatever the
      network answers, if and only if it does not sweep at all, or the state directory can be listed and a
      parsable state file names the source, or the removal fails. */
  lemma UpdateKeepsBodies(env: Env, w: World, id: string)
    requires id in w.raws
    ensures id in Fetched(env, w).0.raws <==> !Sweeps(w) || Kept(env, w, id)
    ensures Kept(env, w, id) <==>
              || (id != "" && env.listable(w.sweeps)
                  && ((exists s: Wizard, i: nat :: HasSource(s, i, id) && (w.active == Some(s) || Some(s) in w.saved))))
              || !env.removable(w.sweeps, id)
  {
    if w.active.Some? {
      SweepIs(env, w.sweeps, w.active.value.sources, w.raws, id);
    }
    KnownIff(w, id);
  }

  ghost predicate HasSource(s: Wizard, i: nat, id: string) {
    i < |s.sources| && s.sources[i].id == id
  }

  lemma NamesIff(s: Wizard, id: string)
    ensures Names(s, id) <==> id != "" && exists i: nat :: HasSource(s, i, id)
  {
    if Names(s, id) {
      var i :| 0 <= i < |s.sources| && s.sources[i].id == id;
      assert HasSource(s, i, id);
    }
    if id != "" && exists i: nat :: HasSource(s, i, id) {
      var i: nat :| HasSource(s, i, id);
      assert s.sources[i].id == id;
    }
  }

  /** Named by the active state file or by a named snapshot. */
  lemma KnownIff(w: World, id: string)
    ensures Known(w, id) <==>
              id != "" && exists s: Wizard, i: nat :: HasSource(s, i, id) && (w.active == Some(s) || Some(s) in w.saved)
  {
    forall s: Wizard ensures Names(s, id) <==> id != "" && exists i: nat :: HasSource(s, i, id) { NamesIff(s, id); }
    if id != "" {
      if s: Wizard, i: nat :| HasSource(s, i, id) && (w.active == Some(s) || Some(s) in w.saved) {
        assert Names(s, id);
        if w.active != Some(s) {
          var k :| 0 <= k < |w.saved| && w.saved[k] == Some(s);
        }
      }
    }
  }

  /** The machine after n Updates in a row. */
  ghost function Iterate(env: Env, w: World, n: nat): World
    decreases n
  {
    if n == 0 then w else Iterate(env, Fetched(env, w).0, n - 1)
  }

  lemma SweepOnce(env: Env, w: World)
    ensures var w' := Fetched(env, w).0;
            w'.active == w.active && w'.saved == w.saved
            && w'.sweeps == w.sweeps + (if Sweeps(w) then 1 else 0)
  {}

  /** The k-th Update from here can list the state directory, or cannot remove the body. */
  ghost predicate SparedAt(env: Env, w: World, id: string, k: nat) {
    env.listable(w.sweeps + k) || !env.removable(w.sweeps + k, id)
  }

  ghost predicate HasBody(env: Env, w: World, id: string, k: nat) {
    id in Iterate(env, w, k).raws
  }

  /** Rebuild's own writing leaves the bodies as the last Update left them. */
  lemma {:induction false} RebuildIterates(env: Env, w: World, forced: bool, fuel: nat)
    requires Rebuild(env, w, forced, fuel).Some?
    ensures var w' := Rebuild(env, w, forced, fuel).value.0;
            w'.sweeps >= w.sweeps && w'.raws == Iterate(env, w, w'.sweeps - w.sweeps).raws
    decreases fuel
  {
    if w.active.Some? && env.template && Missing(w) != {} {
      var (w', ok) := Fetched(env, w);
      SweepOnce(env, w);
      assert Iterate(env, w, 1) == Iterate(env, w', 0);
      if ok {
        assert Sweeps(w);
        NestedRaws(env, w, forced, fuel);
        RebuildIterates(env, w', false, fuel - 1);
      }
    }
  }

  lemma NestedRaws(env: Env, w: World, forced: bool, fuel: nat)
    requires w.active.Some? && env.template && Missing(w) != {} && Fetched(env, w).1
    requires Rebuild(env, w, forced, fuel).Some?
    ensures fuel > 0 && Rebuild(env, Fetched(env, w).0, false, fuel - 1).Some?
    ensures var r, nested := Rebuild(env, w, forced, fuel).value.0, Rebuild(env, Fetched(env, w).0, false, fuel - 1).value.0;
            r.raws == nested.raws && r.sweeps == nested.sweeps
  {}

  lemma {:induction false} BodyStays(env: Env, w: World, id: string, n: nat)
    requires id in w.raws && Known(w, id) && Sweeps(w)
    ensures (forall k: nat | k <= n :: HasBody(env, w, id, k)) <==> forall k: nat | k < n :: SparedAt(env, w, id, k)
    decreases n
  {
    if n > 0 {
      var w' := Fetched(env, w).0;
      UpdateKeepsBodies(env, w, id);
      SweepOnce(env, w);
      assert Known(w', id) <==> Known(w, id);
      assert Iterate(env, w', 0) == w' && Iterate(env, w, 1) == Iterate(env, w', 0);
      assert HasBody(env, w, id, 1) <==> SparedAt(env, w, id, 0);
      if SparedAt(env, w, id, 0) {
        BodyStays(env, w', id, n - 1);
        ShiftBack(env, w, id, n);
      }
    }
  }

  lemma ShiftBack(env: Env, w: World, id: string, n: nat)
    requires n > 0 && Fetched(env, w).0.sweeps == w.sweeps + 1
    ensures var w' := Fetched(env, w).0;
            && ((forall k: nat | 0 < k <= n :: HasBody(env, w, id, k))
                <==> forall k: nat | k <= n - 1 :: HasBody(env, w', id, k))
            && ((forall k: nat | 0 < k < n :: SparedAt(env, w, id, k))
                <==> forall k: nat | k < n - 1 :: SparedAt(env, w', id, k))
  {
    var w' := Fetched(env, w).0;
    forall k: nat | 0 < k ensures HasBody(env, w, id, k) <==> HasBody(env, w', id, k - 1) {}
    forall k: nat | 0 < k ensures SparedAt(env, w, id, k) <==> SparedAt(env, w', id, k - 1) {}
    forall k: nat ensures HasBody(env, w', id, k) <==> HasBody(env, w, id, k + 1) {}
    forall k: nat ensures SparedAt(env, w', id, k) <==> SparedAt(env, w, id, k + 1) {}
  }

  /** Through the whole recursion: the body of a source that a parsable state file names is there after
      every Update if and only if at every sweep the state directory could be listed or the removal failed. */
  lemma RebuildKeepsBodies(env: Env, w: World, forced: bool, fuel: nat, id: string)
    requires id in w.raws && Known(w, id) && Rebuild(env, w, forced, fuel).Some?
    ensures var w' := Rebuild(env, w, forced, fuel).value.0;
            && w'.sweeps >= w.sweeps && w'.raws == Iterate(env, w, w'.sweeps - w.sweeps).raws
            && ((forall k: nat | k <= w'.sweeps - w.sweeps :: HasBody(env, w, id, k))
                <==> forall k: nat | k < w'.sweeps - w.sweeps :: SparedAt(env, w, id, k))
  {
    RebuildIterates(env, w, forced, fuel);
    var w' := Rebuild(env, w, forced, fuel).value.0;
    if Sweeps(w) {
      BodyStays(env, w, id, w'.sweeps - w.sweeps);
    } else {
      NoSweep(env, w, forced, fuel);
      assert Iterate(env, w, 0) == w;
    }
  }

  lemma NoSweep(env: Env, w: World, forced: bool, fuel: nat)
    requires !Sweeps(w) && Rebuild(env, w, forced, fuel).Some?
    ensures Rebuild(env, w, forced, fuel).value.0.sweeps == w.sweeps
  {}

  /** The sweep leaves subscription i without a body. */
  ghost predicate Starves(env: Env, w: World, i: nat)
    requires w.active.Some?
  {
    i in Missing(w) && Delivered(env, w.sweeps, w.active.value.sources, w.active.value.sources[i].id).None?
  }

  /** Subscription i lacks a body after the sweep. */
  ghost predicate Lacks(env: Env, w: World, i: nat)
    requires w.active.Some?
  {
    && i < |w.active.value.sources| && Active(w.active.value.sources[i])
    && (Starves(env, w, i)
        || (!env.listable(w.sweeps) && env.removable(w.sweeps, w.active.value.sources[i].id)))
  }

  /** No file is called ".raw": WriteRawBody refuses the empty id. */
  ghost predicate CacheOk(w: World) {
    "" !in w.raws
  }

  /** After a sweep exactly the starved subscriptions lack a body; when the state directory could not be
      listed, so does every other one whose body could be removed. */
  lemma MissingAfterSweep(env: Env, w: World)
    requires w.active.Some? && w.active.value.hasProxies && CacheOk(w)
    ensures var w' := Fetched(env, w).0;
            && w'.active == w.active && w'.saved == w.saved && w'.config == w.config && CacheOk(w')
            && w'.sweeps == w.sweeps + 1
            && Missing(w') == set i: nat | i < |w.active.value.sources| && Lacks(env, w, i)
  {
    var w' := Fetched(env, w).0;
    var sources := w.active.value.sources;
    SweepIs(env, w.sweeps, sources, w.raws, "");
    forall i: nat | i < |sources| && Active(sources[i])
      ensures i in Missing(w') <==> Lacks(env, w, i)
    {
      var id := sources[i].id;
      SweepIs(env, w.sweeps, sources, w.raws, id);
      assert id != "" ==> Names(w.active.value, id) && Known(w, id);
    }
  }

  // ------------------------------------------------------------ nil returns

  /** What config.json holds after a rebuild that wrote it. */
  ghost predicate Fresh(env: Env, w: World)
    requires w.active.Some?
  {
    && w.config.Some?
    && (env.accepts(w.config.value) ==> !w.configStale)
    && var parsed := env.rebuildParse(w.active.value, Bodies(w.active.value.sources, w.raws));
       parsed.Some? && env.build(w.active.value, parsed.value) == w.config
  }

  /** Every nil return: no enabled subscription lacks a body, and config.json was built from the
      present state and bodies unless nothing was dirty and nothing was asked for. */
  lemma NilReturn(env: Env, w: World, forced: bool, fuel: nat)
    requires Rebuild(env, w, forced, fuel).Some? && Rebuild(env, w, forced, fuel).value.1
    ensures var w' := Rebuild(env, w, forced, fuel).value.0;
            && w'.active.Some? && Missing(w') == {}
            && (Fresh(env, w') || (w' == w && !forced && !w.cacheStale && !w.configStale))
            && (Missing(w) != {} ==> Fresh(env, w'))
  {}

  /** The parser and the builder do their part, and config.json can be written when it must be. */
  ghost predicate Buildable(env: Env, w: World, must: bool)
    requires w.active.Some?
  {
    var parsed := env.rebuildParse(w.active.value, Bodies(w.active.value.sources, w.raws));
    parsed.Some? && (must ==> env.writable && env.build(w.active.value, parsed.value).Some?)
  }

  lemma KeepsState(env: Env, w: World, forced: bool, fuel: nat)
    requires Rebuild(env, w, forced, fuel).Some?
    ensures Rebuild(env, w, forced, fuel).value.0.active == w.active
    decreases fuel
  {
    if w.active.Some? && env.template && Missing(w) != {} && Fetched(env, w).1 {
      SweepOnce(env, w);
      KeepsState(env, Fetched(env, w).0, false, fuel - 1);
    }
  }

  /** Rebuild succeeds exactly when nothing is missing at its end and the bodies found then can be built:
      a failing nested rebuild is forgiven, the first Update is not. */
  lemma RebuildOkIff(env: Env, w: World, forced: bool, fuel: nat)
    requires Rebuild(env, w, forced, fuel).Some?
    ensures var (w', ok) := Rebuild(env, w, forced, fuel).value;
            && w'.active == w.active
            && (ok <==> && w.active.Some? && env.template && Missing(w') == {}
                        && (Missing(w) != {} ==> Fetched(env, w).1)
                        && Buildable(env, w', forced || Missing(w) != {} || w.cacheStale || w.configStale))
  {
    KeepsState(env, w, forced, fuel);
  }

  /** Update succeeds exactly when the parser finds a node in the bodies it leaves. */
  lemma UpdateOkIff(env: Env, w: World, fuel: nat)
    requires Update(env, w, fuel).Some?
    ensures Update(env, w, fuel).value.1 <==>
              && Sweeps(w)
              && var parsed := env.updateParse(w.active.value, Bodies(w.active.value.sources, Fetched(env, w).0.raws));
                 parsed.Some? && parsed.value.nodes > 0
  {}

  /** config.json is what the present state and bodies give, and sing-box accepts it. */
  ghost predicate Accepted(env: Env, w: World) {
    w.active.Some? && Fresh(env, w) && env.accepts(w.config.value)
  }

  /** A stale configuration stays marked until an accepted one is in place, through the whole recursion. */
  lemma {:induction false} StaleUntilAccepted(env: Env, w: World, forced: bool, fuel: nat)
    requires Rebuild(env, w, forced, fuel).Some? && w.configStale
    ensures var w' := Rebuild(env, w, forced, fuel).value.0;
            (w'.configStale || Accepted(env, w')) && (!w.cacheStale ==> !w'.cacheStale)
    decreases fuel
  {
    KeepsState(env, w, forced, fuel);
    if w.active.Some? && env.template && Missing(w) != {} && Fetched(env, w).1 {
      var w1 := Fetched(env, w).0;
      SweepOnce(env, w);
      NestedRaws(env, w, forced, fuel);
      StaleUntilAccepted(env, w1, false, fuel - 1);
      KeepsState(env, w1, false, fuel - 1);
    }
  }

  /** Every successful Update leaves the cache marked fresh, and the configuration marked stale unless an
      accepted one was built from the new bodies. */
  lemma UpdateMarks(env: Env, w: World, fuel: nat)
    requires Update(env, w, fuel).Some? && Update(env, w, fuel).value.1
    ensures var w' := Update(env, w, fuel).value.0;
            !w'.cacheStale && (w'.configStale || Accepted(env, w'))
  {
    SweepOnce(env, w);
    StaleUntilAccepted(env, Fetched(env, w).0, false, fuel);
  }

  /** Without an Update, Rebuild touches config.json and its marker only: an accepted configuration clears
      it, a rejected one leaves it as it was, and a failure leaves everything. */
  lemma PlainRebuildMarks(env: Env, w: World, forced: bool, fuel: nat)
    requires w.active.Some? && env.template && Missing(w) == {}
    ensures Rebuild(env, w, forced, fuel).Some?
    ensures var (w', ok) := Rebuild(env, w, forced, fuel).value;
            && w' == w.(config := w'.config, configStale := w'.configStale)
            && (!ok || (!forced && !w.cacheStale && !w.configStale) ==> w' == w)
            && (ok && (forced || w.cacheStale || w.configStale) ==>
                  && w'.config.Some?
                  && (w'.configStale <==> w.configStale && !env.accepts(w'.config.value)))
  {}

  /** The last enabled subscription of that url whose body is cached. */
  ghost predicate LastCached(sources: seq<Source>, raws: map<string, string>, url: string, i: nat) {
    && i < |sources| && Cached(sources[i], raws, url)
    && forall j | i < j < |sources| :: !Cached(sources[j], raws, url)
  }

  predicate Cached(src: Source, raws: map<string, string>, url: string) {
    Active(src) && src.url == url && ValidRawId(src.id) && src.id in raws
  }

  /** The parser gets, for each url, the body of the last enabled subscription that has one. */
  lemma {:induction false} BodiesAre(sources: seq<Source>, raws: map<string, string>, url: string)
    ensures url in Bodies(sources, raws) <==> exists i: nat :: LastCached(sources, raws, url, i)
    ensures forall i: nat | LastCached(sources, raws, url, i) ::
              url in Bodies(sources, raws) && Bodies(sources, raws)[url] == raws[sources[i].id]
  {
    if sources != [] {
      var n := |sources| - 1;
      BodiesAre(sources[..n], raws, url);
      if Cached(sources[n], raws, url) {
        assert LastCached(sources, raws, url, n);
      } else {
        assert forall i: nat :: LastCached(sources, raws, url, i) <==> LastCached(sources[..n], raws, url, i);
      }
    }
  }

  // --------------------------------------------------------- when it ends

  lemma {:induction false} FuelMonotone(env: Env, w: World, forced: bool, fuel: nat, more: nat)
    requires fuel <= more && Rebuild(env, w, forced, fuel).Some?
    ensures Rebuild(env, w, forced, more) == Rebuild(env, w, forced, fuel)
    decreases fuel
  {
    if w.active.Some? && env.template && Missing(w) != {} {
      var (w', ok) := Fetched(env, w);
      if ok {
        FuelMonotone(env, w', false, fuel - 1, more - 1);
      }
    }
  }

  /** The Update leaves strictly fewer subscriptions without a body. */
  ghost predicate Advances(env: Env, w: World) {
    |Missing(Fetched(env, w).0)| < |Missing(w)|
  }

  /** As long as Rebuild goes on calling Update, for at most k times, each Update makes progress. */
  ghost predicate ProgressFrom(env: Env, w: World, k: nat)
    decreases k
  {
    k > 0 && w.active.Some? && Missing(w) != {} && Fetched(env, w).1 ==>
      Advances(env, w) && ProgressFrom(env, Fetched(env, w).0, k - 1)
  }

  ghost predicate EndsWithin(env: Env, w: World, forced: bool, fuel: nat, sweeps: nat) {
    var r := Rebuild(env, w, forced, fuel);
    r.Some? && r.value.0.sweeps <= sweeps
  }

  /** The missing bodies bound the nesting: if each Update of this run makes progress, the run ends after
      at most as many Updates as bodies are missing. */
  lemma {:induction false} ProgressBoundsNesting(env: Env, w: World, forced: bool, k: nat, fuel: nat)
    requires ProgressFrom(env, w, k) && |Missing(w)| <= k <= fuel
    ensures EndsWithin(env, w, forced, fuel, w.sweeps + |Missing(w)|)
    decreases fuel
  {
    if w.active.Some? && env.template && Missing(w) != {} {
      assert |Missing(w)| > 0;
      if Fetched(env, w).1 {
        var w' := Fetched(env, w).0;
        assert Sweeps(w);
        SweepOnce(env, w);
        ProgressBoundsNesting(env, w', false, k - 1, fuel - 1);
        NestedEnds(env, w, forced, fuel, w'.sweeps + |Missing(w')|, w.sweeps + |Missing(w)|);
      } else {
        FailedEnds(env, w, forced, fuel, w.sweeps + |Missing(w)|);
      }
    } else {
      FlatEnds(env, w, forced, fuel, w.sweeps + |Missing(w)|);
    }
  }

  lemma FlatEnds(env: Env, w: World, forced: bool, fuel: nat, sweeps: nat)
    requires w.active.None? || !env.template || Missing(w) == {}
    requires w.sweeps <= sweeps
    ensures EndsWithin(env, w, forced, fuel, sweeps)
  {}

  lemma NestedEnds(env: Env, w: World, forced: bool, fuel: nat, sweeps: nat, more: nat)
    requires w.active.Some? && env.template && Missing(w) != {} && fuel > 0 && Fetched(env, w).1
    requires EndsWithin(env, Fetched(env, w).0, false, fuel - 1, sweeps) && sweeps <= more
    ensures EndsWithin(env, w, forced, fuel, more)
  {}

  lemma FailedEnds(env: Env, w: World, forced: bool, fuel: nat, sweeps: nat)
    requires w.active.Some? && env.template && Missing(w) != {} && fuel > 0 && !Fetched(env, w).1
    requires sweeps > w.sweeps
    ensures EndsWithin(env, w, forced, fuel, sweeps)
  {}

  ghost predicate Ends(env: Env, w: World, forced: bool) {
    exists fuel: nat :: Rebuild(env, w, forced, fuel).Some?
  }

  /** Here Rebuild does not go deeper. */
  ghost predicate Settles(env: Env, w: World) {
    Missing(w) == {} || !Fetched(env, w).1
  }

  ghost predicate SettlesAfter(env: Env, w: World, n: nat) {
    Settles(env, Iterate(env, w, n))
  }

  lemma {:induction false} EndsSettled(env: Env, w: World, forced: bool, fuel: nat) returns (n: nat)
    requires w.active.Some? && env.template && Rebuild(env, w, forced, fuel).Some?
    ensures SettlesAfter(env, w, n)
    decreases fuel
  {
    if Settles(env, w) {
      n := 0;
    } else {
      SweepOnce(env, w);
      var m := EndsSettled(env, Fetched(env, w).0, false, fuel - 1);
      n := m + 1;
    }
  }

  lemma {:induction false} SettledEnds(env: Env, w: World, forced: bool, n: nat) returns (fuel: nat)
    requires w.active.Some? && env.template && SettlesAfter(env, w, n)
    ensures Rebuild(env, w, forced, fuel).Some?
    decreases n
  {
    if Settles(env, w) {
      fuel := 1;
    } else {
      SweepOnce(env, w);
      var w' := Fetched(env, w).0;
      var inner := SettledEnds(env, w', false, n - 1);
      fuel := inner + 1;
      var sweeps := Rebuild(env, w', false, inner).value.0.sweeps;
      NestedEnds(env, w, forced, fuel, sweeps, sweeps);
    }
  }

  /** The recursion ends if and only if it does not start, or after some number of Updates nothing is
      missing or the next Update fails: for all sources, parsers and machines. */
  lemma EndsIff(env: Env, w: World, forced: bool)
    ensures Ends(env, w, forced) <==>
              w.active.None? || !env.template || exists n: nat :: SettlesAfter(env, w, n)
  {
    if w.active.None? || !env.template {
      assert Rebuild(env, w, forced, 0).Some?;
    } else {
      if Ends(env, w, forced) {
        var fuel: nat :| Rebuild(env, w, forced, fuel).Some?;
        var n := EndsSettled(env, w, forced, fuel);
        assert SettlesAfter(env, w, n);
      }
      if exists n: nat :: SettlesAfter(env, w, n) {
        var n: nat :| SettlesAfter(env, w, n);
        var fuel := SettledEnds(env, w, forced, n);
        assert Ends(env, w, forced);
      }
    }
  }

  /** The sources answer every sweep alike. */
  ghost predicate Stationary(env: Env) {
    && (forall n: nat, i: nat :: env.fetch(n, i) == env.fetch(0, i))
    && (forall n: nat :: env.listable(n) == env.listable(0))
    && (forall n: nat, id: string :: env.removable(n, id) == env.removable(0, id))
  }

  lemma {:induction false} DeliveredAlike(env: Env, n: nat, m: nat, sources: seq<Source>, id: string)
    requires Stationary(env)
    ensures Delivered(env, n, sources, id) == Delivered(env, m, sources, id)
  {
    if sources != [] {
      var k := |sources| - 1;
      assert env.fetch(n, k) == env.fetch(0, k) == env.fetch(m, k);
      DeliveredAlike(env, n, m, sources[..k], id);
    }
  }

  /** With the same answers a second sweep changes no body. */
  lemma SecondSweep(env: Env, w: World)
    requires Stationary(env) && CacheOk(w) && Fetched(env, w).1
    ensures var w1 := Fetched(env, w).0;
            Fetched(env, w1).1 && Fetched(env, w1).0.raws == w1.raws && Fetched(env, w1).0.active == w.active
  {
    var w1 := Fetched(env, w).0;
    var sources := w.active.value.sources;
    var again := Collect(env, w1, Sweep(env, w1.sweeps, sources, w1.raws));
    forall id ensures id in again <==> id in w1.raws
              ensures id in again ==> again[id] == w1.raws[id]
    {
      SweepIs(env, w.sweeps, sources, w.raws, id);
      SweepIs(env, w1.sweeps, sources, w1.raws, id);
      DeliveredAlike(env, w.sweeps, w1.sweeps, sources, id);
      assert Known(w1, id) <==> Known(w, id);
      if Delivered(env, w.sweeps, sources, id).Some? {
        assert Names(w.active.value, id) && Known(w, id);
      }
    }
    assert again == w1.raws;
  }

  lemma {:induction false} Loops(env: Env, w: World, forced: bool, fuel: nat)
    requires Stationary(env) && CacheOk(w) && env.template && Missing(w) != {}
    requires Fetched(env, w).1 && Missing(Fetched(env, w).0) != {}
    ensures Rebuild(env, w, forced, fuel).None?
    decreases fuel
  {
    if fuel > 0 {
      MissingAfterSweep(env, w);
      SecondSweep(env, w);
      Loops(env, Fetched(env, w).0, false, fuel - 1);
    }
  }

  /** When the sources answer alike each time, the first Update decides: the recursion ends exactly if
      nothing is missing, that Update fails, or it leaves no subscription without a body: its sweep feeds
      every one that lacks it, and its GC can list the state directory or remove none. */
  lemma StationaryEndsIff(env: Env, w: World, forced: bool)
    requires Stationary(env) && CacheOk(w)
    ensures Ends(env, w, forced) <==>
              || !env.template || Missing(w) == {} || !Fetched(env, w).1
              || (w.active.Some? && !exists i: nat :: Lacks(env, w, i))
  {
    if env.template && Missing(w) != {} && Fetched(env, w).1 {
      MissingAfterSweep(env, w);
      var w1 := Fetched(env, w).0;
      if Missing(w1) != {} {
        forall fuel: nat ensures Rebuild(env, w, forced, fuel).None? {
          Loops(env, w, forced, fuel);
        }
        var i :| i in Missing(w1);
        assert Lacks(env, w, i);
      } else {
        assert forall i: nat :: Lacks(env, w, i) ==> i in Missing(w1);
        assert Iterate(env, w1, 0) == w1 && Iterate(env, w, 1) == Iterate(env, w1, 0);
        assert SettlesAfter(env, w, 1);
        EndsIff(env, w, forced);
      }
    } else {
      assert Rebuild(env, w, forced, 1).Some?;
    }
  }

  /** Such a run exists: one source whose fetch keeps failing beside one that delivers a node. */
  lemma NestingNeedNotEnd() returns (env: Env, w: World)
    ensures Stationary(env) && CacheOk(w) && !Ends(env, w, false)
  {
    var down, up := Source("a", true, true, "u"), Source("b", true, true, "v");
    env := Env((n, i) => if i == 1 then Some("x") else None, (s, m) => Some(Parsed(1, "")), n => true, (n, id) => true,
               true,
               (s, m) => Some(Parsed(1, "")), (s, p) => Some(""), true, c => true);
    w := World(Some(Wizard([down, up], true)), [], map[], None, false, false, 0);
    var sources := w.active.value.sources;
    assert sources[0] == down && Active(down) && sources[0].id !in w.raws;
    assert 0 in Lacking(sources, w.raws);
    assert Starves(env, w, 0) && Lacks(env, w, 0);
    StationaryEndsIff(env, w, false);
  }
}
