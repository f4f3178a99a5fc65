/**
 * Project.js: the stage that installs and builds the project under test, optionally on a port of
 * its own, and kills what it started before and after the run.
 */
module ProjectPlugin {
  import opened Wrappers
  import opened Js
  import opened Util
  import opened TestRecord
  import opened Stage
  import LeaseStore
  import PortPolicy
  import Port
  import Text

  const DefaultName: string := "pluginProject"
  /** The project root relative to the DWT directory, the layout the tool recommends. */
  const DefaultRoot: string := "../../"
  const KeyPrefix: string := "project-e2etest-"
  /** The name the stage's port leases are saved under. */
  const LeaseName: string := "project"

  /** The constructor options the model keeps; `usePort` is any value, tested for truthiness. */
  datatype Options = Options(
    rootPath: Option<string>,
    usePort: Value,
    port: Option<int>,
    installCmd: Option<StrOrFunc<Record>>,
    buildCmd: Option<StrOrFunc<(int, Record)>>)

  /** The stage's fields; `processKey` is unset until `init`. */
  datatype Project = Project(
    rootPath: string,
    usePort: bool,
    port: int,
    installCmd: StrOrFunc<Record>,
    buildCmd: StrOrFunc<(int, Record)>,
    processKey: Option<string>)

  const DefaultInstall: StrOrFunc<Record> := Computed(_ => "npm install")
  const DefaultBuild: StrOrFunc<(int, Record)> := Computed(_ => "npm start")

  /** The constructor: every option falls back to its default when falsy. */
  function Create(opts: Options): (p: Project)
    ensures p.rootPath != "" && (Given(opts.rootPath) ==> p.rootPath == opts.rootPath.value)
    ensures !Given(opts.rootPath) ==> p.rootPath == DefaultRoot
    ensures p.usePort == Truthy(opts.usePort)
    ensures p.port == OrDefault(opts.port, 0)
    ensures CmdGiven(opts.installCmd) ==> p.installCmd == opts.installCmd.value
    ensures !CmdGiven(opts.installCmd) ==> p.installCmd == DefaultInstall
    ensures CmdGiven(opts.buildCmd) ==> p.buildCmd == opts.buildCmd.value
    ensures !CmdGiven(opts.buildCmd) ==> p.buildCmd == DefaultBuild
    ensures p.processKey.None?
  {
    Project(TextOr(opts.rootPath, DefaultRoot), Truthy(opts.usePort), OrDefault(opts.port, 0),
            CmdOr(opts.installCmd, DefaultInstall), CmdOr(opts.buildCmd, DefaultBuild), None)
  }

  /** Without options the stage installs with `npm install`, builds with `npm start`, and needs no port. */
  lemma Defaults(rec: Record, port: int)
    ensures var p := Create(Options(None, Undefined, None, None, None));
      && p.rootPath == DefaultRoot && !p.usePort && p.port == 0
      && FromStrOrFunc(p.installCmd, rec) == "npm install"
      && FromStrOrFunc(p.buildCmd, (port, rec)) == "npm start"
  {
  }

  /** The unique marker appended to every command the stage starts, so that `clean` can find them. */
  function ProcessKey(seqId: string): (k: string)
    ensures |k| > |KeyPrefix| - 1 && k[..|KeyPrefix|] == KeyPrefix && k[|KeyPrefix|..] == seqId
  {
    KeyPrefix + seqId
  }

  /**
   * `init` as written resolves the root against `testRecord.dwtPath`, a field the record does not
   * have, so any relative root, the default one included, makes `path.join` throw.
   */
  function InitAsWritten(p: Project, rec: Record, ops: PathOps): (r: Result<Project, Thrown>)
    requires p.rootPath != ""
    ensures r.Failure? <==> !ops.isAbsolute(p.rootPath)
    ensures r.Success? ==> r.value == p.(processKey := Some(ProcessKey(rec.seqId)))
  {
    var root := GetAbsolutePath(ops, None, Some(p.rootPath));
    if root.Failure? then Failure(root.error)
    else Success(p.(rootPath := root.value, processKey := Some(ProcessKey(rec.seqId))))
  }

  /** `init` with the root resolved against the record's `basePath`, the directory relative roots are meant to be under. */
  function Init(p: Project, rec: Record, ops: PathOps): (r: Project)
    requires p.rootPath != ""
    ensures ops.isAbsolute(p.rootPath) ==> r.rootPath == p.rootPath
    ensures !ops.isAbsolute(p.rootPath) ==> r.rootPath == ops.resolve(ops.join(rec.basePath, p.rootPath))
    ensures r == p.(rootPath := r.rootPath, processKey := Some(ProcessKey(rec.seqId)))
  {
    var root := GetAbsolutePath(ops, Some(rec.basePath), Some(p.rootPath));
    p.(rootPath := root.value, processKey := Some(ProcessKey(rec.seqId)))
  }

  /** The default root is relative, so with the constructor defaults `init` as written always throws a TypeError. */
  lemma DefaultRootBreaksInitAsWritten(rec: Record, ops: PathOps)
    requires !ops.isAbsolute(DefaultRoot)
    ensures var p := Create(Options(None, Undefined, None, None, None));
      && InitAsWritten(p, rec, ops).Failure?
      && InitAsWritten(p, rec, ops).error.ErrorObj?
      && InitAsWritten(p, rec, ops).error.kind == "TypeError"
      && Init(p, rec, ops).rootPath == ops.resolve(ops.join(rec.basePath, DefaultRoot))
  {
  }

  /** `install`: nothing in development mode, otherwise the install command, tagged, run in the root. */
  function InstallEffects(p: Project, rec: Record): (r: seq<Effect>)
    ensures rec.isDev <==> r == []
    ensures !rec.isDev ==> r == [Exec(Tagged(FromStrOrFunc(p.installCmd, rec), p.processKey), Some(p.rootPath))]
  {
    if rec.isDev then [] else [Exec(Tagged(FromStrOrFunc(p.installCmd, rec), p.processKey), Some(p.rootPath))]
  }

  /** `build`: the build command for the stage's current port, tagged, run in the root. */
  function BuildEffect(p: Project, rec: Record): Effect {
    Exec(Tagged(FromStrOrFunc(p.buildCmd, (p.port, rec)), p.processKey), Some(p.rootPath))
  }

  /**
   * After `init`, every command the stage runs carries its process key, which is what `clean`
   * searches for; and the key names the run, so two runs never share it.
   */
  lemma CommandsCarryTheKey(p: Project, rec: Record, ops: PathOps, other: Record)
    requires p.rootPath != ""
    requires other.seqId != rec.seqId
    ensures var q := Init(p, rec, ops);
      && (forall e :: e in InstallEffects(q, rec) + [BuildEffect(q, rec)] ==>
            Text.OccursAt(e.command, ProcessKey(rec.seqId), |e.command| - |ProcessKey(rec.seqId)|))
      && ProcessKey(rec.seqId) != ProcessKey(other.seqId)
  {
    var q := Init(p, rec, ops);
    var key := ProcessKey(rec.seqId);
    assert KeyText(q.processKey) == key;
    var effects := InstallEffects(q, rec) + [BuildEffect(q, rec)];
    forall e | e in effects
      ensures Text.OccursAt(e.command, key, |e.command| - |key|)
    {
      if e == BuildEffect(q, rec) {
        assert e.command == Tagged(FromStrOrFunc(q.buildCmd, (q.port, rec)), q.processKey);
      } else {
        assert e.command == Tagged(FromStrOrFunc(q.installCmd, rec), q.processKey);
      }
    }
    assert ProcessKey(rec.seqId)[|KeyPrefix|..] == rec.seqId;
    assert ProcessKey(other.seqId)[|KeyPrefix|..] == other.seqId;
  }

  /**
   * `clean` as written: nothing without `usePort`; otherwise a swallowed search-and-kill of the
   * process key, and then, with a port, a call to `utilPort.kill`, which util/port.js does not
   * export (it exports `killPort`), so the call throws a TypeError that nothing catches.
   */
  function CleanAsWritten(p: Project, rec: Record, cache: Option<LeaseStore.Cache>): (r: Act<Project>)
    ensures !p.usePort ==> r.effects == [] && r.outcome == Resolved
    ensures p.usePort ==> r.effects == [KillBySearch(KeyText(p.processKey))]
    ensures r.outcome.Rejected? <==> p.usePort && p.port != 0
    ensures r.state == p && r.record == rec && r.cache == cache
  {
    if !p.usePort then Act([], p, rec, cache, Resolved)
    else
      var effects := [KillBySearch(KeyText(p.processKey))];
      if p.port != 0 then Act(effects, p, rec, cache, Rejected(TypeError("utilPort.kill is not a function")))
      else Act(effects, p, rec, cache, Resolved)
  }

  /** `clean` calling `killPort`, the function util/port.js does export; both kills are swallowed. */
  function Clean(p: Project, rec: Record, cache: Option<LeaseStore.Cache>): (r: Act<Project>)
    ensures r.outcome == Resolved
    ensures r.effects == [] <==> !p.usePort
    ensures forall e :: e in r.effects <==>
      p.usePort && (e == KillBySearch(KeyText(p.processKey)) || (p.port != 0 && e == KillPort(p.port)))
    ensures r.state == p && r.record == rec && r.cache == cache
  {
    if !p.usePort then Act([], p, rec, cache, Resolved)
    else if p.port != 0 then Act([KillBySearch(KeyText(p.processKey)), KillPort(p.port)], p, rec, cache, Resolved)
    else Act([KillBySearch(KeyText(p.processKey))], p, rec, cache, Resolved)
  }

  /** The two versions agree except where the written one throws. */
  lemma CleanAgreesUntilThePort(p: Project, rec: Record, cache: Option<LeaseStore.Cache>)
    ensures CleanAsWritten(p, rec, cache).outcome.Resolved? ==> CleanAsWritten(p, rec, cache) == Clean(p, rec, cache)
    ensures CleanAsWritten(p, rec, cache).outcome.Rejected? ==>
      CleanAsWritten(p, rec, cache).effects + [KillPort(p.port)] == Clean(p, rec, cache).effects
  {
  }

  /** `findPort`: nothing without `usePort`, otherwise the shared port step under the name "project". */
  function FindPort(p: Project, rec: Record, w: World, cache: Option<LeaseStore.Cache>)
    : (r: Result<(Project, Option<LeaseStore.Cache>), Halt<Project>>)
    requires Sound(cache)
    ensures r.Success? ==> Sound(r.value.1) && r.value.0 == p.(port := r.value.0.port)
    ensures r.Failure? ==> r.error.state == p.(port := r.error.state.port)
    ensures !p.usePort ==> r == Success((p, cache))
  {
    if !p.usePort then Success((p, cache))
    else
      var a := PortPolicy.FindPort(LeaseName, p.port, rec.seqId, w.now, cache, w.probe);
      if a.Failure? then Failure(Halt(a.error.error, p.(port := a.error.port)))
      else Success((p.(port := a.value.port), a.value.cache))
  }

  /** `beforeRun` */
  function BeforeRun(p: Project, rec: Record, cache: Option<LeaseStore.Cache>): (r: Act<Project>)
    ensures r == Clean(p, rec, cache)
  {
    Clean(p, rec, cache)
  }

  /** `afterRun` */
  function AfterRun(p: Project, rec: Record, cache: Option<LeaseStore.Cache>): (r: Act<Project>)
    ensures r == Clean(p, rec, cache)
  {
    Clean(p, rec, cache)
  }

  /** `run`: install, then find a port, then build; the first rejection ends it. */
  function Run(p: Project, rec: Record, w: World, cache: Option<LeaseStore.Cache>): (r: Act<Project>)
    requires Sound(cache)
    ensures Sound(r.cache) && r.record == rec
  {
    var install := InstallEffects(p, rec);
    if install != [] && w.settle(install[0]).Rejected? then
      Act(install, p, rec, cache, w.settle(install[0]))
    else
      var found := FindPort(p, rec, w, cache);
      if found.Failure? then Act(install, found.error.state, rec, cache, Rejected(found.error.error))
      else
        var q := found.value.0;
        var build := BuildEffect(q, rec);
        Act(install + [build], q, rec, found.value.1, w.settle(build))
  }

  /**
   * A lease write that throws after the search found a port leaves the stage on that port, because
   * the port is assigned before the lease is written: `run` rejects with the write's error, the
   * cache is as it was, and the cleanup that follows kills the found port.
   */
  lemma FailedLeaseKeepsPort(p: Project, rec: Record, w: World, cache: Option<LeaseStore.Cache>)
    requires Sound(cache)
    requires p.usePort && p.port == 0 && (rec.isDev || w.settle(InstallEffects(p, rec)[0]).Resolved?)
    requires var found := Port.FindAvailablePort(Some(PortPolicy.SearchStart), Some(LeaseStore.GetUsedPort(cache)), w.probe);
      && found.Settled? && found.result.Success?
      && LeaseStore.SaveUsedPort(LeaseName, found.result.value, rec.seqId, None, w.now, cache).Failure?
    ensures var port := Port.FindAvailablePort(Some(PortPolicy.SearchStart), Some(LeaseStore.GetUsedPort(cache)), w.probe).result.value;
      var r := Run(p, rec, w, cache);
      && port != 0 && r.state == p.(port := port)
      && r.outcome == Rejected(LeaseStore.SaveUsedPort(LeaseName, port, rec.seqId, None, w.now, cache).error)
      && r.cache == cache && r.effects == InstallEffects(p, rec)
      && KillPort(port) in AfterRun(r.state, rec, r.cache).effects
      && CleanAsWritten(r.state, rec, r.cache).outcome.Rejected?
  {
    PortPolicy.AllocationFailures(LeaseName, rec.seqId, w.now, cache, w.probe);
  }

  /**
   * The order of `run`: the install command (skipped in development mode) comes first, and a failed
   * install leaves the lease cache alone; the build runs last, on the port `findPort` settled on,
   * which is a freshly leased one exactly when a port is wanted and none was given.
   */
  lemma RunOrder(p: Project, rec: Record, w: World, cache: Option<LeaseStore.Cache>)
    requires Sound(cache)
    ensures var r := Run(p, rec, w, cache);
      && r.effects[..|InstallEffects(p, rec)|] == InstallEffects(p, rec)
      && (InstallEffects(p, rec) != [] && w.settle(InstallEffects(p, rec)[0]).Rejected? ==>
            r.effects == InstallEffects(p, rec) && r.cache == cache && r.outcome.Rejected?)
      && (r.outcome.Resolved? ==>
            && r.effects == InstallEffects(p, rec) + [BuildEffect(r.state, rec)]
            && (!p.usePort || p.port != 0 ==> r.state == p && r.cache == cache)
            && (p.usePort && p.port == 0 ==>
                  r.state.port >= PortPolicy.SearchStart
                  && r.state.port !in LeaseStore.GetUsedPort(cache)
                  && r.state.port in LeaseStore.GetUsedPort(r.cache)))
  {
    var r := Run(p, rec, w, cache);
    if r.outcome.Resolved? && p.usePort && p.port == 0 {
      PortPolicy.AllocatedPortIsFreshAndLeased(LeaseName, rec.seqId, w.now, cache, w.probe);
    }
  }

  /**
   * The consequence of the `utilPort.kill` call: once a run with `usePort` has a port, fixed or
   * leased, the written `afterRun` rejects, so the whole test run is reported as failed.
   */
  lemma PortedRunFailsCleanupAsWritten(p: Project, rec: Record, w: World, cache: Option<LeaseStore.Cache>)
    requires Sound(cache)
    requires p.usePort
    requires Run(p, rec, w, cache).outcome.Resolved?
    ensures CleanAsWritten(Run(p, rec, w, cache).state, rec, Run(p, rec, w, cache).cache).outcome
         == Rejected(TypeError("utilPort.kill is not a function"))
    ensures Clean(Run(p, rec, w, cache).state, rec, Run(p, rec, w, cache).cache).outcome == Resolved
  {
    RunOrder(p, rec, w, cache);
    var r := Run(p, rec, w, cache);
    if p.port == 0 {
      assert r.state.port >= PortPolicy.SearchStart;
    }
  }
}
