/**
 * Mockstar.js: the stage that installs the mock server app, gives it a port, starts it, and kills
 * it before and after the run.
 */
module MockstarPlugin {
  import opened Wrappers
  import opened Js
  import opened Util
  import opened TestRecord
  import opened Stage
  import LeaseStore
  import PortPolicy
  import Port
  import Text

  const DefaultName: string := "pluginMockstar"
  /** The mock app's root relative to the DWT directory, its sibling in the recommended layout. */
  const DefaultRoot: string := "../mockstar-app"
  const KeyPrefix: string := "mockstar-e2etest-"
  /** The name the stage's port lease and pid are saved under. */
  const LeaseName: string := "mockstar"

  datatype Options = Options(rootPath: Option<string>, port: Option<int>, installCmd: Option<StrOrFunc<Record>>)

  /** The stage's fields; `processKey` is unset until `init`. */
  datatype Mockstar = Mockstar(rootPath: string, port: int, installCmd: StrOrFunc<Record>, processKey: Option<string>)

  const DefaultInstall: StrOrFunc<Record> := Computed(_ => "npm install")

  /** The constructor: every option falls back to its default when falsy. */
  function Create(opts: Options): (m: Mockstar)
    ensures m.rootPath != "" && (Given(opts.rootPath) ==> m.rootPath == opts.rootPath.value)
    ensures !Given(opts.rootPath) ==> m.rootPath == DefaultRoot
    ensures m.port == OrDefault(opts.port, 0)
    ensures forall rec :: (FromStrOrFunc(m.installCmd, rec) ==
                            if opts.installCmd.None? || opts.installCmd.value == Literal("") then "npm install"
                            else FromStrOrFunc(opts.installCmd.value, rec))
    ensures m.processKey.None?
  {
    Mockstar(TextOr(opts.rootPath, DefaultRoot), OrDefault(opts.port, 0), CmdOr(opts.installCmd, DefaultInstall), None)
  }

  function ProcessKey(seqId: string): (k: string)
    ensures |k| == |KeyPrefix| + |seqId| && k[..|KeyPrefix|] == KeyPrefix && k[|KeyPrefix|..] == seqId
  {
    KeyPrefix + seqId
  }

  /** `init`: the root made absolute against the record's `basePath`, and the run's process key. */
  function Init(m: Mockstar, rec: Record, ops: PathOps): (r: Mockstar)
    requires m.rootPath != ""
    ensures ops.isAbsolute(m.rootPath) ==> r.rootPath == m.rootPath
    ensures !ops.isAbsolute(m.rootPath) ==> r.rootPath == ops.resolve(ops.join(rec.basePath, m.rootPath))
    ensures r.port == m.port && r.installCmd == m.installCmd && r.processKey == Some(ProcessKey(rec.seqId))
  {
    var root := GetAbsolutePath(ops, Some(rec.basePath), Some(m.rootPath));
    m.(rootPath := root.value, processKey := Some(ProcessKey(rec.seqId)))
  }

  /** `install`: nothing in development mode, otherwise the install command, tagged, run in the root. */
  function InstallEffects(m: Mockstar, rec: Record): (r: seq<Effect>)
    ensures rec.isDev <==> r == []
    ensures !rec.isDev ==> r == [Exec(Tagged(FromStrOrFunc(m.installCmd, rec), m.processKey), Some(m.rootPath))]
  {
    if rec.isDev then [] else [Exec(Tagged(FromStrOrFunc(m.installCmd, rec), m.processKey), Some(m.rootPath))]
  }

  /** `mockstar run --<key> -p <port>` spawned in the root. */
  function StartEffect(m: Mockstar): Effect {
    Spawn("mockstar", ["run", "--" + KeyText(m.processKey), "-p", PortText(m.port)], Some(m.rootPath))
  }

  /**
   * After `init` the install command and the server's spawn both carry the run's own process key,
   * the key `clean` searches for; two runs never share a key.
   */
  lemma CleanFindsTheServer(m: Mockstar, rec: Record, ops: PathOps, cache: Option<LeaseStore.Cache>, other: Record)
    requires m.rootPath != ""
    requires other.seqId != rec.seqId
    ensures var q, key := Init(m, rec, ops), ProcessKey(rec.seqId);
      && StartEffect(q).args[1] == "--" + key
      && Text.OccursAt(StartEffect(q).args[1], key, 2)
      && (forall e :: e in InstallEffects(q, rec) ==> Text.OccursAt(e.command, key, |e.command| - |key|))
      && KillBySearch(key) in Clean(q, rec, cache).effects
      && key != ProcessKey(other.seqId)
  {
    var q, key := Init(m, rec, ops), ProcessKey(rec.seqId);
    assert KeyText(q.processKey) == key;
    assert ("--" + key)[2..2 + |key|] == key;
    assert ProcessKey(rec.seqId)[|KeyPrefix|..] == rec.seqId;
    assert ProcessKey(other.seqId)[|KeyPrefix|..] == other.seqId;
  }

  /** The address the server prints once it listens. */
  function Address(port: int): string {
    "127.0.0.1:" + PortText(port)
  }

  /** The spawn's readiness test on a chunk of output: it is non-empty and mentions the loopback address with the port. */
  function Ready(port: int, data: string): bool {
    data != "" && Text.IndexOf(data, Address(port)) > -1
  }

  /** The output counts as ready exactly when it mentions the server's address somewhere. */
  lemma ReadyIffAddressPrinted(port: int, data: string)
    ensures Ready(port, data) <==> exists i :: Text.OccursAt(data, Address(port), i)
  {
    Text.IndexOfFindsOccurrence(data, Address(port));
    if exists i :: Text.OccursAt(data, Address(port), i) {
      var i :| Text.OccursAt(data, Address(port), i);
      assert data[i] == '1';
    }
  }

  /**
   * `clean` as written: a swallowed search-and-kill of the process key, and then, with a port, a
   * call to `utilPort.kill`, which util/port.js does not export, so it throws a TypeError.
   */
  function CleanAsWritten(m: Mockstar, rec: Record, cache: Option<LeaseStore.Cache>): (r: Act<Mockstar>)
    ensures r.effects == [KillBySearch(KeyText(m.processKey))]
    ensures r.outcome.Rejected? <==> m.port != 0
    ensures r.state == m && r.record == rec && r.cache == cache
  {
    var effects := [KillBySearch(KeyText(m.processKey))];
    if m.port != 0 then Act(effects, m, rec, cache, Rejected(TypeError("utilPort.kill is not a function")))
    else Act(effects, m, rec, cache, Resolved)
  }

  /** `clean` calling `killPort`, the function util/port.js does export; both kills are swallowed. */
  function Clean(m: Mockstar, rec: Record, cache: Option<LeaseStore.Cache>): (r: Act<Mockstar>)
    ensures r.outcome == Resolved
    ensures |r.effects| > 0 && r.effects[0] == KillBySearch(KeyText(m.processKey))
    ensures forall e :: e in r.effects <==> e == KillBySearch(KeyText(m.processKey)) || (m.port != 0 && e == KillPort(m.port))
    ensures r.state == m && r.record == rec && r.cache == cache
  {
    if m.port != 0 then Act([KillBySearch(KeyText(m.processKey)), KillPort(m.port)], m, rec, cache, Resolved)
    else Act([KillBySearch(KeyText(m.processKey))], m, rec, cache, Resolved)
  }

  /** `beforeRun` */
  function BeforeRun(m: Mockstar, rec: Record, cache: Option<LeaseStore.Cache>): (r: Act<Mockstar>)
    ensures r == Clean(m, rec, cache)
  {
    Clean(m, rec, cache)
  }

  /** `afterRun` */
  function AfterRun(m: Mockstar, rec: Record, cache: Option<LeaseStore.Cache>): (r: Act<Mockstar>)
    ensures r == Clean(m, rec, cache)
  {
    Clean(m, rec, cache)
  }

  /**
   * `start`: spawn the server, then record the pid it reports against the stage's lease. A spawn
   * that fails, or a lease entry without a list, rejects.
   */
  function Start(m: Mockstar, rec: Record, w: World, cache: Option<LeaseStore.Cache>): (r: Act<Mockstar>)
    requires Sound(cache)
    ensures Sound(r.cache) && r.state == m && r.record == rec && r.effects == [StartEffect(m)]
    ensures w.settle(StartEffect(m)).Rejected? ==> r.outcome == w.settle(StartEffect(m)) && r.cache == cache
  {
    var spawn := StartEffect(m);
    if w.settle(spawn).Rejected? then Act([spawn], m, rec, cache, w.settle(spawn))
    else
      var saved := LeaseStore.SaveUsedPid(LeaseName, w.pidOf(spawn), rec.seqId, w.now, cache);
      if saved.Failure? then Act([spawn], m, rec, cache, Rejected(saved.error))
      else Act([spawn], m, rec, AfterPid(cache, saved.value), Resolved)
  }

  /** `findPort`: the shared port step under the name "mockstar"; unlike Project.js it is not gated. */
  function FindPort(m: Mockstar, rec: Record, w: World, cache: Option<LeaseStore.Cache>)
    : (r: Result<(Mockstar, Option<LeaseStore.Cache>), Halt<Mockstar>>)
    requires Sound(cache)
    ensures r.Success? ==> Sound(r.value.1) && r.value.0 == m.(port := r.value.0.port) && r.value.0.port != 0
    ensures r.Failure? ==> r.error.state == m.(port := r.error.state.port)
    ensures m.port != 0 ==> r == Success((m, cache))
  {
    var a := PortPolicy.FindPort(LeaseName, m.port, rec.seqId, w.now, cache, w.probe);
    if a.Failure? then Failure(Halt(a.error.error, m.(port := a.error.port)))
    else Success((m.(port := a.value.port), a.value.cache))
  }

  /** `run`: install, then find a port, then start the server; the first rejection ends it. */
  function Run(m: Mockstar, rec: Record, w: World, cache: Option<LeaseStore.Cache>): (r: Act<Mockstar>)
    requires Sound(cache)
    ensures Sound(r.cache) && r.record == rec
  {
    var install := InstallEffects(m, rec);
    if install != [] && w.settle(install[0]).Rejected? then
      Act(install, m, rec, cache, w.settle(install[0]))
    else
      var found := FindPort(m, rec, w, cache);
      if found.Failure? then Act(install, found.error.state, rec, cache, Rejected(found.error.error))
      else
        var started := Start(found.value.0, rec, w, found.value.1);
        started.(effects := install + started.effects)
  }

  /**
   * A lease write that throws after the search found a port leaves the stage on that port, because
   * the port is assigned before the lease is written: `run` rejects with the write's error, the
   * cache is as it was, and the cleanup that follows kills the found port.
   */
  lemma FailedLeaseKeepsPort(m: Mockstar, rec: Record, w: World, cache: Option<LeaseStore.Cache>)
    requires Sound(cache)
    requires m.port == 0 && (rec.isDev || w.settle(InstallEffects(m, rec)[0]).Resolved?)
    requires var found := Port.FindAvailablePort(Some(PortPolicy.SearchStart), Some(LeaseStore.GetUsedPort(cache)), w.probe);
      && found.Settled? && found.result.Success?
      && LeaseStore.SaveUsedPort(LeaseName, found.result.value, rec.seqId, None, w.now, cache).Failure?
    ensures var port := Port.FindAvailablePort(Some(PortPolicy.SearchStart), Some(LeaseStore.GetUsedPort(cache)), w.probe).result.value;
      var r := Run(m, rec, w, cache);
      && port != 0 && r.state == m.(port := port)
      && r.outcome == Rejected(LeaseStore.SaveUsedPort(LeaseName, port, rec.seqId, None, w.now, cache).error)
      && r.cache == cache && r.effects == InstallEffects(m, rec)
      && KillPort(port) in AfterRun(r.state, rec, r.cache).effects
      && CleanAsWritten(r.state, rec, r.cache).outcome.Rejected?
  {
    PortPolicy.AllocationFailures(LeaseName, rec.seqId, w.now, cache, w.probe);
  }

  /**
   * The order of `run`: the install command (none in development mode), then the spawn of the
   * server on the port `findPort` settled on, which is never 0; a failed install leaves the lease
   * cache alone.
   */
  lemma RunOrder(m: Mockstar, rec: Record, w: World, cache: Option<LeaseStore.Cache>)
    requires Sound(cache)
    ensures var r := Run(m, rec, w, cache);
      && r.effects[..|InstallEffects(m, rec)|] == InstallEffects(m, rec)
      && (InstallEffects(m, rec) != [] && w.settle(InstallEffects(m, rec)[0]).Rejected? ==>
            r.effects == InstallEffects(m, rec) && r.cache == cache && r.outcome.Rejected?)
      && (r.outcome.Resolved? ==>
            && r.effects == InstallEffects(m, rec) + [StartEffect(r.state)]
            && r.state.port != 0
            && (m.port != 0 ==> r.state == m))
  {
  }

  /** When the only lease of a name is the run's last one, `saveUsedPid` sets the pid on that lease. */
  lemma PidLandsOnLastLease(name: string, pid: Option<int>, seqId: string, now: int, cache: Option<LeaseStore.Cache>)
    requires Sound(cache)
    requires seqId in LeaseStore.Loaded(cache).entries
    requires LeaseStore.Loaded(cache).entries[seqId].list.Some?
    requires var l := LeaseStore.Loaded(cache).entries[seqId].list.value;
      |l| > 0 && l[|l| - 1].name == name && forall j :: 0 <= j < |l| - 1 ==> l[j].name != name
    ensures var saved := LeaseStore.SaveUsedPid(name, pid, seqId, now, cache);
      var l := LeaseStore.Loaded(cache).entries[seqId].list.value;
      && saved.Success? && saved.value.Some? && seqId in saved.value.value.entries
      && var l' := saved.value.value.entries[seqId].list;
      && l'.Some? && |l'.value| == |l| && l'.value[|l| - 1] == l[|l| - 1].(pid := pid)
  {
    var l := LeaseStore.Loaded(cache).entries[seqId].list.value;
    var saved := LeaseStore.SaveUsedPid(name, pid, seqId, now, cache);
    assert l[|l| - 1].name == name;
    var e := saved.value.value.entries[seqId];
    var i :| 0 <= i < |l| && l[i].name == name
      && (forall j :: 0 <= j < i ==> l[j].name != name)
      && e.list.value[i] == l[i].(pid := pid);
    assert i == |l| - 1;
  }

  /** A resolved `run` found a port, spawned the server on it, and kept the cache the pid write left. */
  lemma ResolvedRun(m: Mockstar, rec: Record, w: World, cache: Option<LeaseStore.Cache>)
    requires Sound(cache)
    requires Run(m, rec, w, cache).outcome.Resolved?
    ensures FindPort(m, rec, w, cache).Success?
    ensures var found := FindPort(m, rec, w, cache).value;
      var saved := LeaseStore.SaveUsedPid(LeaseName, w.pidOf(StartEffect(found.0)), rec.seqId, w.now, found.1);
      && saved.Success?
      && Run(m, rec, w, cache).state == found.0
      && Run(m, rec, w, cache).cache == AfterPid(found.1, saved.value)
  {
    var install := InstallEffects(m, rec);
    assert !(install != [] && w.settle(install[0]).Rejected?);
    var found := FindPort(m, rec, w, cache).value;
    var started := Start(found.0, rec, w, found.1);
    assert Run(m, rec, w, cache) == started.(effects := install + started.effects);
  }

  /** A port the step leased sits in the run's last lease, the only one of that name. */
  lemma AllocationEndsWithOwnLease(m: Mockstar, rec: Record, w: World, cache: Option<LeaseStore.Cache>)
    requires Sound(cache)
    requires m.port == 0
    requires forall l :: l in LeaseStore.PriorLeases(LeaseStore.Loaded(cache), rec.seqId) ==> l.name != LeaseName
    requires FindPort(m, rec, w, cache).Success?
    ensures var found := FindPort(m, rec, w, cache).value;
      && found.1.Some? && rec.seqId in found.1.value.entries
      && found.1.value.entries[rec.seqId].list.Some?
      && var l := found.1.value.entries[rec.seqId].list.value;
      && |l| > 0 && l[|l| - 1] == LeaseStore.Lease(LeaseName, found.0.port, None)
      && forall j :: 0 <= j < |l| - 1 ==> l[j].name != LeaseName
  {
    var found := FindPort(m, rec, w, cache).value;
    PortPolicy.AllocatedPortIsFreshAndLeased(LeaseName, rec.seqId, w.now, cache, w.probe);
    var prior := LeaseStore.PriorLeases(LeaseStore.Loaded(cache), rec.seqId);
    var l := found.1.value.entries[rec.seqId].list.value;
    assert l == prior + [LeaseStore.Lease(LeaseName, found.0.port, None)];
    OnlyTheLastIsNamed(prior, LeaseStore.Lease(LeaseName, found.0.port, None));
  }

  /** Appending a "mockstar" lease to leases of other names leaves it the only one of that name. */
  lemma OnlyTheLastIsNamed(prior: seq<LeaseStore.Lease>, last: LeaseStore.Lease)
    requires forall l :: l in prior ==> l.name != LeaseName
    ensures var l := prior + [last];
      forall j :: 0 <= j < |l| - 1 ==> l[j].name != LeaseName
  {
    var l := prior + [last];
    forall j | 0 <= j < |l| - 1
      ensures l[j].name != LeaseName
    {
      assert l[j] == prior[j] && prior[j] in prior;
    }
  }

  /** A pid saved after a port the step leased lands on that lease. */
  lemma PidOnAllocatedLease(m: Mockstar, rec: Record, w: World, cache: Option<LeaseStore.Cache>, pid: Option<int>)
    requires Sound(cache)
    requires m.port == 0
    requires forall l :: l in LeaseStore.PriorLeases(LeaseStore.Loaded(cache), rec.seqId) ==> l.name != LeaseName
    requires FindPort(m, rec, w, cache).Success?
    ensures var found := FindPort(m, rec, w, cache).value;
      var saved := LeaseStore.SaveUsedPid(LeaseName, pid, rec.seqId, w.now, found.1);
      && saved.Success? && saved.value.Some? && rec.seqId in saved.value.value.entries
      && saved.value.value.entries[rec.seqId].list.Some?
      && var l := saved.value.value.entries[rec.seqId].list.value;
      && |l| > 0 && l[|l| - 1] == LeaseStore.Lease(LeaseName, found.0.port, pid)
  {
    var found := FindPort(m, rec, w, cache).value;
    AllocationEndsWithOwnLease(m, rec, w, cache);
    PidLandsOnLastLease(LeaseName, pid, rec.seqId, w.now, found.1);
  }

  /**
   * When the run leased its port (none was given, and the run held no earlier "mockstar" lease),
   * a successful `run` leaves that lease holding the pid the spawn reported.
   */
  lemma LeaseHoldsThePid(m: Mockstar, rec: Record, w: World, cache: Option<LeaseStore.Cache>)
    requires Sound(cache)
    requires m.port == 0
    requires forall l :: l in LeaseStore.PriorLeases(LeaseStore.Loaded(cache), rec.seqId) ==> l.name != LeaseName
    requires Run(m, rec, w, cache).outcome.Resolved?
    ensures var r := Run(m, rec, w, cache);
      && r.cache.Some? && rec.seqId in r.cache.value.entries
      && r.cache.value.entries[rec.seqId].list.Some?
      && var l := r.cache.value.entries[rec.seqId].list.value;
      && |l| > 0 && l[|l| - 1] == LeaseStore.Lease(LeaseName, r.state.port, w.pidOf(StartEffect(r.state)))
  {
    ResolvedRun(m, rec, w, cache);
    var found := FindPort(m, rec, w, cache).value;
    PidOnAllocatedLease(m, rec, w, cache, w.pidOf(StartEffect(found.0)));
  }

  /**
   * The consequence of the `utilPort.kill` call: a successful `run` always ends with a nonzero
   * port, so the written `afterRun` always rejects; and with a fixed port so does `beforeRun`.
   */
  lemma CleanupFailsAsWritten(m: Mockstar, rec: Record, w: World, cache: Option<LeaseStore.Cache>)
    requires Sound(cache)
    ensures m.port != 0 ==> CleanAsWritten(m, rec, cache).outcome == Rejected(TypeError("utilPort.kill is not a function"))
    ensures Run(m, rec, w, cache).outcome.Resolved? ==>
      CleanAsWritten(Run(m, rec, w, cache).state, rec, Run(m, rec, w, cache).cache).outcome.Rejected?
      && Clean(Run(m, rec, w, cache).state, rec, Run(m, rec, w, cache).cache).outcome == Resolved
  {
    RunOrder(m, rec, w, cache);
  }
}
