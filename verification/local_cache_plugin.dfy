/** LocalCache.js: the stage the engine always puts first; it cleans the lease cache before and after the run. */
module LocalCachePlugin {
  import opened Wrappers
  import opened Js
  import opened TestRecord
  import opened Stage
  import LeaseStore
  import BasePlugin

  /** The name used when none is given. */
  const DefaultName: string := "pluginLocalCache"

  /** `new PluginLocalCache(name, opts)`: an empty name falls back to the default one. */
  function Create(name: string, shouldSkip: BasePlugin.SkipOption): (p: BasePlugin.Plugin)
    ensures p.name != "" && (name != "" ==> p.name == name)
  {
    BasePlugin.Create(if name != "" then name else DefaultName, shouldSkip)
  }

  /**
   * `clean(testRecord)`: the lease-store cleanup for the record's run, with each kill request it
   * makes turned into a `killPids` effect. A failed kill is swallowed, so the hook always resolves.
   */
  function Clean(rec: Record, w: World, cache: Option<LeaseStore.Cache>): (r: Act<()>)
    requires Sound(cache)
    ensures Sound(r.cache)
    ensures r.outcome == Resolved && r.record == rec
    ensures var cleaned := LeaseStore.Clean(rec.seqId, cache, w.now);
      && r.cache == cleaned.cache
      && |r.effects| == |cleaned.kills|
      && forall i :: 0 <= i < |r.effects| ==> r.effects[i] == KillPids(cleaned.kills[i])
  {
    var cleaned := LeaseStore.Clean(rec.seqId, cache, w.now);
    Act(seq(|cleaned.kills|, i requires 0 <= i < |cleaned.kills| => KillPids(cleaned.kills[i])), (), rec, cleaned.cache, Resolved)
  }

  /** `beforeRun`: the base hook, then `clean`. */
  function BeforeRun(rec: Record, w: World, cache: Option<LeaseStore.Cache>): (r: Act<()>)
    requires Sound(cache)
    ensures r == Clean(rec, w, cache)
  {
    Clean(rec, w, cache)
  }

  /** `run`: only the base hook, which does nothing. */
  function Run(rec: Record, cache: Option<LeaseStore.Cache>): (r: Act<()>)
    ensures r.effects == [] && r.record == rec && r.cache == cache && r.outcome == Resolved
  {
    Act([], (), rec, cache, Resolved)
  }

  /** `afterRun`: the base hook, then `clean`. */
  function AfterRun(rec: Record, w: World, cache: Option<LeaseStore.Cache>): (r: Act<()>)
    requires Sound(cache)
    ensures r == Clean(rec, w, cache)
  {
    Clean(rec, w, cache)
  }

  /** The pid batches of a run of `killPids` effects. */
  function Batches(effects: seq<Effect>): (b: seq<seq<int>>)
    requires forall i :: 0 <= i < |effects| ==> effects[i].KillPids?
    ensures |b| == |effects| && forall i :: 0 <= i < |b| ==> b[i] == effects[i].pids
  {
    seq(|effects|, i requires 0 <= i < |effects| => effects[i].pids)
  }

  /**
   * After either hook the run's own entry is gone and so is every entry more than two hours old;
   * the pids killed are exactly the truthy pids of the entries removed; and at the same `now` a
   * second cleanup finds nothing more to do.
   */
  lemma CleanHookSpec(rec: Record, w: World, cache: Option<LeaseStore.Cache>)
    requires Sound(cache)
    ensures var r := BeforeRun(rec, w, cache);
      && (cache.None? ==> r.cache.None? && r.effects == [])
      && (cache.Some? ==>
            && r.cache.Some?
            && rec.seqId !in r.cache.value.entries
            && (forall k :: k in r.cache.value.entries ==> !LeaseStore.Expired(r.cache.value.entries[k], w.now))
            && LeaseStore.KillsRemoved(cache.value, r.cache.value, Batches(r.effects)))
      && AfterRun(rec, w, r.cache).effects == []
      && AfterRun(rec, w, r.cache).cache == r.cache
  {
    var r := BeforeRun(rec, w, cache);
    LeaseStore.CleanIdempotent(rec.seqId, cache, w.now);
    assert Batches(r.effects) == LeaseStore.Clean(rec.seqId, cache, w.now).kills;
  }

  /** Created without a `shouldSkip` option, as the engine creates it, the stage always runs. */
  lemma AlwaysRuns(name: string, rec: Record)
    ensures BasePlugin.ShouldRun(Create(name, BasePlugin.SkipValue(Undefined)), rec)
  {
    BasePlugin.ShouldRunByDefault(if name != "" then name else DefaultName, rec);
  }
}
