/** `RebuildConfigIfDirty`, `UpdateConfigFromSubscriptions` and their helpers as methods over the
    controller's state, each proved against module RebuildSpec.  The recursion is stated wherever it ends:
    the ghost `fuel` is a nesting depth that suffices. */
module RebuildService {
  import opened Basics
  import opened RebuildSpec

  class ConfigService {
    const env: Env
    var active: Option<Wizard>
    var saved: seq<Option<Wizard>>
    var raws: map<string, string>
    var config: Option<string>
    var cacheStale: bool
    var configStale: bool
    var sweeps: nat
    /** The package-level hook `subscription.LookupCachedBody`; None is nil. */
    var lookupCachedBody: Option<map<string, string>>

    ghost function View(): World
      reads this
    {
      World(active, saved, raws, config, cacheStale, configStale, sweeps)
    }

    constructor (env: Env, w: World)
      ensures View() == w && this.env == env
    {
      this.env := env;
      active, saved, raws, config := w.active, w.saved, w.raws, w.config;
      cacheStale, configStale, sweeps, lookupCachedBody := w.cacheStale, w.configStale, w.sweeps, None;
    }

    // validateRawID
    method ValidateRawID(id: string) returns (ok: bool)
      ensures ok <==> id != "" && |id| <= 128 && forall c <- id :: AsciiIdChar(c as int)
      ensures ok == ValidRawId(id)
    {
      ValidRawIdIff(id);
      if id == "" { return false; }
      if |id| > 128 { return false; }
      for i := 0 to |id|
        invariant forall k | 0 <= k < i :: RawIdChar(id[k])
      {
        var c := id[i];
        if !('A' <= c <= 'Z' || 'a' <= c <= 'z' || '0' <= c <= '9' || c == '-' || c == '_') { return false; }
      }
      ok := true;
    }

    // buildSnapshotFromRawCache: the completeness loop
    method MissingBodies(s: Wizard) returns (missing: seq<nat>)
      ensures forall k :: k in missing <==> k in Lacking(s.sources, raws)
      ensures missing == [] <==> Lacking(s.sources, raws) == {}
    {
      missing := [];
      for i := 0 to |s.sources|
        invariant forall k :: k in missing <==> k < i && k in Lacking(s.sources, raws)
      {
        var src := s.sources[i];
        if !src.subscription || !src.enabled || src.url == "" { continue; }
        if src.id !in raws {
          missing := missing + [i];
        }
      }
      assert forall k <- Lacking(s.sources, raws) :: k in missing;
      assert missing != [] ==> missing[0] in Lacking(s.sources, raws);
    }

    method BuildBodyLookup(s: Wizard) returns (out: map<string, string>)
      ensures out == Bodies(s.sources, raws)
    {
      out := map[];
      for i := 0 to |s.sources|
        invariant out == Bodies(s.sources[..i], raws)
      {
        assert s.sources[..i + 1][..i] == s.sources[..i];
        var src := s.sources[i];
        if !src.subscription || !src.enabled || src.url == "" { continue; }
        if ValidRawId(src.id) && src.id in raws {
          out := out[src.url := raws[src.id]];
        }
      }
      assert s.sources[..|s.sources|] == s.sources;
    }

    // refreshSubscriptionsMetaAndCache: the fetch loop
    method FetchAll(s: Wizard)
      modifies this`raws
      ensures raws == Sweep(env, sweeps, s.sources, old(raws))
    {
      for i := 0 to |s.sources|
        invariant raws == Sweep(env, sweeps, s.sources[..i], old(raws))
      {
        assert s.sources[..i + 1][..i] == s.sources[..i];
        var src := s.sources[i];
        if !src.subscription || !src.enabled || src.url == "" { continue; }
        var answer := env.fetch(sweeps, i);
        if answer.Some? {
          raws := WriteRaw(raws, src.id, answer.value);
        }
      }
      assert s.sources[..|s.sources|] == s.sources;
    }

    method SourceIDs(s: Wizard) returns (ids: set<string>)
      ensures forall id :: id in ids <==> Names(s, id)
    {
      ids := {};
      for i := 0 to |s.sources|
        invariant forall id :: id in ids <==> id != "" && exists k | 0 <= k < i :: s.sources[k].id == id
      {
        if s.sources[i].id != "" {
          ids := ids + {s.sources[i].id};
        }
      }
    }

    // collectAllStageSourceIDs: an unparsable file is skipped, an unreadable directory yields nothing
    method CollectAllStageSourceIDs() returns (ids: set<string>)
      ensures forall id :: id in ids <==> env.listable(sweeps) && Known(View(), id)
    {
      ids := {};
      if !env.listable(sweeps) { return; }
      if active.Some? {
        ids := SourceIDs(active.value);
      }
      ghost var first := ids;
      for i := 0 to |saved|
        invariant forall id :: id in ids <==>
                    id in first || exists k | 0 <= k < i :: saved[k].Some? && Names(saved[k].value, id)
      {
        if saved[i].Some? {
          var more := SourceIDs(saved[i].value);
          ids := ids + more;
        }
      }
    }

    // state.DeleteOrphans
    method DeleteOrphans(known: set<string>)
      requires forall id :: id in known <==> env.listable(sweeps) && Known(View(), id)
      modifies this`raws
      ensures raws == Collect(env, old(View()), old(raws))
    {
      var entries := raws.Keys;
      while entries != {}
        invariant entries <= old(raws).Keys
        invariant forall id :: id in raws <==> id in old(raws) && (id in entries || Kept(env, old(View()), id))
        invariant forall id <- raws :: raws[id] == old(raws)[id]
      {
        var id :| id in entries;
        entries := entries - {id};
        if id !in known && env.removable(sweeps, id) {
          raws := raws - {id};
        }
      }
      assert raws == Collect(env, old(View()), old(raws));
    }

    /** Update up to its call of Rebuild. */
    method FetchSubscriptions() returns (ok: bool)
      modifies this
      ensures (View(), ok) == Fetched(env, old(View())) && lookupCachedBody == old(lookupCachedBody)
    {
      if active.None? { return false; }
      if !active.value.hasProxies { return false; }
      var s := active.value;
      FetchAll(s);
      var knownIDs := CollectAllStageSourceIDs();
      ghost var swept := View();
      DeleteOrphans(knownIDs);
      assert raws == Collect(env, old(View()), swept.raws) by {
        assert forall id :: Known(swept, id) <==> Known(old(View()), id);
      }
      sweeps := sweeps + 1;
      var bodyByURL := BuildBodyLookup(s);
      var prevHook := lookupCachedBody;
      lookupCachedBody := Some(bodyByURL);
      var result := env.updateParse(s, bodyByURL);
      lookupCachedBody := prevHook;
      if result.None? { return false; }
      if result.value.nodes == 0 { return false; }
      cacheStale := false;
      configStale := true;
      ok := true;
    }

    /** The rest of a rebuild once the cache is complete. */
    method WriteConfig(forced: bool, cacheMissing: bool) returns (ok: bool)
      requires active.Some?
      modifies this
      ensures (View(), ok) == Write(env, old(View()), forced || cacheMissing)
      ensures lookupCachedBody == old(lookupCachedBody)
    {
      var bodyByURL := BuildBodyLookup(active.value);
      var prev := lookupCachedBody;
      lookupCachedBody := Some(bodyByURL);
      var snapshot := env.rebuildParse(active.value, bodyByURL);
      lookupCachedBody := prev;
      if snapshot.None? { return false; }
      if !forced && !cacheMissing && !cacheStale && !configStale { return true; }
      var res := env.build(active.value, snapshot.value);
      if res.None? { return false; }
      if !env.writable { return false; }
      config := res;
      var configValid := env.accepts(res.value);
      if configValid {
        configStale := false;
      }
      ok := true;
    }

    method RebuildConfigIfDirty(forced: bool, ghost fuel: nat) returns (ok: bool)
      requires Rebuild(env, View(), forced, fuel).Some?
      modifies this
      decreases fuel, 0
      ensures Some((View(), ok)) == Rebuild(env, old(View()), forced, fuel)
      ensures lookupCachedBody == old(lookupCachedBody)
    {
      if active.None? { return false; }
      if !env.template { return false; }
      var missing := MissingBodies(active.value);
      var cacheMissing := missing != [];
      if cacheMissing {
        var updated := UpdateConfigFromSubscriptions(fuel - 1);
        if !updated { return false; }
        if active.None? { return false; }
        missing := MissingBodies(active.value);
        if missing != [] { return false; }
      }
      ok := WriteConfig(forced, cacheMissing);
    }

    method UpdateConfigFromSubscriptions(ghost fuel: nat) returns (ok: bool)
      requires Update(env, View(), fuel).Some?
      modifies this
      decreases fuel, 1
      ensures Some((View(), ok)) == Update(env, old(View()), fuel)
      ensures lookupCachedBody == old(lookupCachedBody)
    {
      ok := FetchSubscriptions();
      if !ok { return; }
      var rebuilt := RebuildConfigIfDirty(false, fuel);
      ok := true;
    }
  }
}
