/**
 * Whistle.js: the stage that starts a whistle proxy on a port of its own, loads the rules the user
 * supplies into it, checks that it answers, and remembers its port for later runs.
 */
module WhistlePlugin {
  import opened Wrappers
  import opened Js
  import opened Util
  import opened TestRecord
  import opened Stage
  import LeaseStore
  import PortPolicy
  import Port
  import Text

  const DefaultName: string := "pluginWhistle"
  const ConfigFileName: string := "test.whistle.js"
  const KeyPrefix: string := "whistle-e2etest-"
  /** The name the stage's port lease and pid are saved under. */
  const LeaseName: string := "whistle"
  /** The `lastUsed` slot the proxy's port is remembered in. */
  const SlotName: string := "Whistle"
  /** The line put before the user's rules so that tunnelled HTTPS traffic is captured. */
  const CaptureRule: string := "* enable://capture"
  const NoRulesMessage: string := "无法自动生成 whistle 代理规则！"
  const NotStartedMessage: string := "检测 whistle 未成功启动, checkURL="

  /** The object `getWhistleRules` returns, reduced to the two fields the stage tests. */
  datatype Rules = Rules(name: Value, rules: Value)

  /** The stage's fields; `configFile` and `processKey` are unset until `init`. */
  datatype Whistle = Whistle(
    port: int,
    getRules: Record -> Option<Rules>,
    configFile: Option<string>,
    processKey: Option<string>)

  /**
   * The default `getWhistleRules`: an object whose only field is `rules` (a comment followed by the
   * record as JSON, abbreviated here to the comment). It has no `name`.
   */
  function DefaultRules(rec: Record): Option<Rules> {
    Some(Rules(Undefined, Str("# 也许你需要配置下代理 \n ")))
  }

  /** The constructor; `getRules` is `None` when the option is not a function. */
  function Create(port: Option<int>, getRules: Option<Record -> Option<Rules>>): (p: Whistle)
    ensures p.port == OrDefault(port, 0)
    ensures getRules.Some? ==> p.getRules == getRules.value
    ensures getRules.None? ==> p.getRules == DefaultRules
    ensures p.configFile.None? && p.processKey.None?
  {
    Whistle(OrDefault(port, 0), if getRules.Some? then getRules.value else DefaultRules, None, None)
  }

  function ProcessKey(seqId: string): (k: string)
    ensures |k| == |KeyPrefix| + |seqId| && k[|KeyPrefix|..] == seqId
  {
    KeyPrefix + seqId
  }

  /** `init`: the config file inside the record's output directory, and the run's process key. */
  function Init(p: Whistle, rec: Record, ops: PathOps): (r: Whistle)
    ensures r == p.(configFile := Some(ops.join(rec.outputPath, ConfigFileName)), processKey := Some(ProcessKey(rec.seqId)))
  {
    p.(configFile := Some(ops.join(rec.outputPath, ConfigFileName)), processKey := Some(ProcessKey(rec.seqId)))
  }

  /** Rules the stage accepts: an object with a truthy `name` and truthy `rules`. */
  predicate Acceptable(rules: Option<Rules>) {
    rules.Some? && Truthy(rules.value.name) && Truthy(rules.value.rules)
  }

  /**
   * `generateConfigFile`: the rule text written to the config file, the capture line first; rules
   * without a `name` or without `rules` are rejected with a plain string, and an unset config path
   * makes the write throw.
   */
  function GenerateConfigFile(p: Whistle, rec: Record): (r: Result<string, Thrown>)
    ensures !Acceptable(p.getRules(rec)) ==> r == Failure(Raw(NoRulesMessage))
    ensures Acceptable(p.getRules(rec)) && p.configFile.None? ==> r.Failure? && r.error.ErrorObj?
    ensures r.Success? ==> (Acceptable(p.getRules(rec)) && p.configFile.Some?
                            && r.value == CaptureRule + "\n\n" + Interpolated(p.getRules(rec).value.rules))
  {
    var rules := p.getRules(rec);
    if !Acceptable(rules) then Failure(Raw(NoRulesMessage))
    else if p.configFile.None? then Failure(TypeError(UndefinedPathMessage))
    else Success(CaptureRule + "\n\n" + Interpolated(rules.value.rules))
  }

  /** The rules text always begins with the capture line, then a blank line, then the user's rules unchanged. */
  lemma RulesKeepUserText(p: Whistle, rec: Record)
    requires GenerateConfigFile(p, rec).Success?
    ensures var text := GenerateConfigFile(p, rec).value;
      var user := Interpolated(p.getRules(rec).value.rules);
      && text[..|CaptureRule|] == CaptureRule
      && text[|CaptureRule|..|CaptureRule| + 2] == "\n\n"
      && text[|CaptureRule| + 2..] == user
  {
    var text := GenerateConfigFile(p, rec).value;
    assert text == CaptureRule + ("\n\n" + Interpolated(p.getRules(rec).value.rules));
  }

  /** The default rules carry no `name`, so a stage left on them never gets past `generateConfigFile`. */
  lemma DefaultRulesRejected(port: Option<int>, rec: Record, ops: PathOps)
    ensures GenerateConfigFile(Init(Create(port, None), rec, ops), rec) == Failure(Raw(NoRulesMessage))
  {
  }

  /** `clean`: search-and-kill the process key, then kill the port when there is one; both failures are swallowed. */
  function Clean(p: Whistle, rec: Record, cache: Option<LeaseStore.Cache>): (r: Act<Whistle>)
    ensures r.outcome == Resolved
    ensures |r.effects| > 0 && r.effects[0] == KillBySearch(KeyText(p.processKey))
    ensures forall e :: e in r.effects <==> e == KillBySearch(KeyText(p.processKey)) || (p.port != 0 && e == KillPort(p.port))
    ensures r.state == p && r.record == rec && r.cache == cache
  {
    if p.port != 0 then Act([KillBySearch(KeyText(p.processKey)), KillPort(p.port)], p, rec, cache, Resolved)
    else Act([KillBySearch(KeyText(p.processKey))], p, rec, cache, Resolved)
  }

  /** `beforeRun` */
  function BeforeRun(p: Whistle, rec: Record, cache: Option<LeaseStore.Cache>): (r: Act<Whistle>)
    ensures r == Clean(p, rec, cache)
  {
    Clean(p, rec, cache)
  }

  /** `afterRun` */
  function AfterRun(p: Whistle, rec: Record, cache: Option<LeaseStore.Cache>): (r: Act<Whistle>)
    ensures r == Clean(p, rec, cache)
  {
    Clean(p, rec, cache)
  }

  /** `findPort`: the shared port step under the name "whistle". */
  function FindPort(p: Whistle, rec: Record, w: World, cache: Option<LeaseStore.Cache>)
    : (r: Result<(Whistle, Option<LeaseStore.Cache>), Halt<Whistle>>)
    requires Sound(cache)
    ensures r.Success? ==> Sound(r.value.1) && r.value.0 == p.(port := r.value.0.port) && r.value.0.port != 0
    ensures r.Failure? ==> r.error.state == p.(port := r.error.state.port)
    ensures p.port != 0 ==> r == Success((p, cache))
  {
    var a := PortPolicy.FindPort(LeaseName, p.port, rec.seqId, w.now, cache, w.probe);
    if a.Failure? then Failure(Halt(a.error.error, p.(port := a.error.port)))
    else Success((p.(port := a.value.port), a.value.cache))
  }

  /**
   * A lease write that throws after the search found a port leaves the stage on that port, because
   * the port is assigned before the lease is written: `run` rejects with the write's error, the
   * cache is as it was, and the cleanup that follows kills the found port.
   */
  lemma FailedLeaseKeepsPort(p: Whistle, rec: Record, w: World, cache: Option<LeaseStore.Cache>)
    requires Sound(cache)
    requires p.port == 0
    requires var found := Port.FindAvailablePort(Some(PortPolicy.SearchStart), Some(LeaseStore.GetUsedPort(cache)), w.probe);
      && found.Settled? && found.result.Success?
      && LeaseStore.SaveUsedPort(LeaseName, found.result.value, rec.seqId, None, w.now, cache).Failure?
    ensures var port := Port.FindAvailablePort(Some(PortPolicy.SearchStart), Some(LeaseStore.GetUsedPort(cache)), w.probe).result.value;
      var r := Run(p, rec, w, cache);
      && port != 0 && r.state == p.(port := port)
      && r.outcome == Rejected(LeaseStore.SaveUsedPort(LeaseName, port, rec.seqId, None, w.now, cache).error)
      && r.cache == cache && r.effects == []
      && KillPort(port) in AfterRun(r.state, rec, r.cache).effects
  {
    PortPolicy.AllocationFailures(LeaseName, rec.seqId, w.now, cache, w.probe);
  }

  /** The URL whose answer shows that a proxy on `port` is up. */
  function CheckUrl(port: int): string {
    "http://127.0.0.1:" + PortText(port) + "/cgi-bin/get-data"
  }

  /** `w2 start -S <key> -p <port>` */
  function StartEffect(p: Whistle): Effect {
    Spawn("w2", ["start", "-S", KeyText(p.processKey), "-p", PortText(p.port)], None)
  }

  /**
   * `start`: spawn the proxy, record its pid against the stage's lease, then poll the check URL
   * with the default retries; once it answers the port is saved in the `lastUsedWhistle` slot,
   * and if it never does the stage rejects with a string naming the URL.
   */
  function Start(p: Whistle, rec: Record, w: World, cache: Option<LeaseStore.Cache>): (r: Act<Whistle>)
    requires Sound(cache)
    ensures Sound(r.cache) && r.state == p && r.record == rec && r.effects == [StartEffect(p)]
  {
    var spawn := StartEffect(p);
    if w.settle(spawn).Rejected? then Act([spawn], p, rec, cache, w.settle(spawn))
    else
      var saved := LeaseStore.SaveUsedPid(LeaseName, w.pidOf(spawn), rec.seqId, w.now, cache);
      if saved.Failure? then Act([spawn], p, rec, cache, Rejected(saved.error))
      else
        var afterPid := AfterPid(cache, saved.value);
        var url := CheckUrl(p.port);
        var check := CheckAndWaitURLAvailable(w.up(url), CheckOptions(None, None, None));
        if check.Available? then
          Act([spawn], p, rec, Some(LeaseStore.SaveLastUsedPort(SlotName, p.port, w.now, afterPid)), Resolved)
        else Act([spawn], p, rec, afterPid, Rejected(Raw(NotStartedMessage + url)))
  }

  /**
   * A started proxy's port is what the `lastUsedWhistle` slot reads afterwards; a proxy that never
   * answered was polled eleven times, none answering, and the slot is left as it was.
   */
  lemma StartRemembersPort(p: Whistle, rec: Record, w: World, cache: Option<LeaseStore.Cache>)
    requires Sound(cache)
    requires rec.seqId != LeaseStore.SlotKey(SlotName)
    ensures var r := Start(p, rec, w, cache);
      && (r.outcome.Resolved? ==>
            LeaseStore.GetLastUsedPort(SlotName, r.cache) == Some(p.port)
            && exists k :: 0 <= k <= 10 && w.up(CheckUrl(p.port))(k))
      && (r.outcome.Rejected? && w.settle(StartEffect(p)).Resolved?
          && LeaseStore.SaveUsedPid(LeaseName, w.pidOf(StartEffect(p)), rec.seqId, w.now, cache).Success? ==>
            && r.outcome == Rejected(Raw(NotStartedMessage + CheckUrl(p.port)))
            && (forall k :: 0 <= k <= 10 ==> !w.up(CheckUrl(p.port))(k))
            && LeaseStore.GetLastUsedPort(SlotName, r.cache) == LeaseStore.GetLastUsedPort(SlotName, cache))
  {
    StartAnswered(p, rec, w, cache);
    StartUnanswered(p, rec, w, cache);
  }

  /** The resolved half of `StartRemembersPort`. */
  lemma StartAnswered(p: Whistle, rec: Record, w: World, cache: Option<LeaseStore.Cache>)
    requires Sound(cache)
    ensures var r := Start(p, rec, w, cache);
      r.outcome.Resolved? ==>
        LeaseStore.GetLastUsedPort(SlotName, r.cache) == Some(p.port)
        && exists k :: 0 <= k <= 10 && w.up(CheckUrl(p.port))(k)
  {
    var r := Start(p, rec, w, cache);
    var spawn := StartEffect(p);
    var up := w.up(CheckUrl(p.port));
    DefaultCheck(up);
    if r.outcome.Resolved? {
      var saved := LeaseStore.SaveUsedPid(LeaseName, w.pidOf(spawn), rec.seqId, w.now, cache);
      var afterPid := AfterPid(cache, saved.value);
      var check := CheckAndWaitURLAvailable(up, CheckOptions(None, None, None));
      LeaseStore.LastUsedRoundTrip(SlotName, SlotName, p.port, w.now, afterPid);
      var k := check.attempts - 1;
      assert 0 <= k <= 10 && up(k);
    }
  }

  /** The half of `StartRemembersPort` about a proxy that never answered. */
  lemma StartUnanswered(p: Whistle, rec: Record, w: World, cache: Option<LeaseStore.Cache>)
    requires Sound(cache)
    requires rec.seqId != LeaseStore.SlotKey(SlotName)
    ensures var r := Start(p, rec, w, cache);
      r.outcome.Rejected? && w.settle(StartEffect(p)).Resolved?
      && LeaseStore.SaveUsedPid(LeaseName, w.pidOf(StartEffect(p)), rec.seqId, w.now, cache).Success? ==>
        && r.outcome == Rejected(Raw(NotStartedMessage + CheckUrl(p.port)))
        && (forall k :: 0 <= k <= 10 ==> !w.up(CheckUrl(p.port))(k))
        && LeaseStore.GetLastUsedPort(SlotName, r.cache) == LeaseStore.GetLastUsedPort(SlotName, cache)
  {
    var spawn := StartEffect(p);
    var up := w.up(CheckUrl(p.port));
    DefaultCheck(up);
    if w.settle(spawn).Resolved? {
      var saved := LeaseStore.SaveUsedPid(LeaseName, w.pidOf(spawn), rec.seqId, w.now, cache);
      if saved.Success? {
        PidWriteKeepsSlots(LeaseName, w.pidOf(spawn), rec.seqId, w.now, cache);
      }
    }
  }

  /** The default readiness check polls at most eleven times: the answer, or eleven silent polls. */
  lemma DefaultCheck(up: nat -> bool)
    ensures var check := CheckAndWaitURLAvailable(up, CheckOptions(None, None, None));
      && (check.Available? ==> 1 <= check.attempts <= 11 && up(check.attempts - 1))
      && (check.RetryMax? ==> check.attempts == 11 && forall k :: 0 <= k < 11 ==> !up(k))
  {
    var check := CheckAndWaitURLAvailable(up, CheckOptions(None, None, None));
    assert check == Attempts(up, 0, 10, 0);
  }

  /** Recording a pid touches only the run's entry, never a `lastUsed` slot. */
  lemma PidWriteKeepsSlots(name: string, pid: Option<int>, seqId: string, now: int, cache: Option<LeaseStore.Cache>)
    requires Sound(cache)
    requires seqId != LeaseStore.SlotKey(SlotName)
    requires LeaseStore.SaveUsedPid(name, pid, seqId, now, cache).Success?
    ensures var after := AfterPid(cache, LeaseStore.SaveUsedPid(name, pid, seqId, now, cache).value);
      Sound(after) && LeaseStore.GetLastUsedPort(SlotName, after) == LeaseStore.GetLastUsedPort(SlotName, cache)
  {
  }

  /** `w2 use <configFile> -S <key> --force` */
  function UseEffect(p: Whistle): Effect {
    Spawn("w2", ["use", if p.configFile.Some? then p.configFile.value else "undefined", "-S", KeyText(p.processKey), "--force"], None)
  }

  /**
   * After `init` the proxy is started and given its rules under the run's own process key, the
   * key `clean` searches for, and the rules file it loads lies in the output directory; two runs
   * never share a key.
   */
  lemma CleanFindsTheProxy(p: Whistle, rec: Record, ops: PathOps, cache: Option<LeaseStore.Cache>, other: Record)
    requires other.seqId != rec.seqId
    ensures var q, key := Init(p, rec, ops), ProcessKey(rec.seqId);
      && StartEffect(q).args[2] == key && UseEffect(q).args[3] == key
      && UseEffect(q).args[1] == ops.join(rec.outputPath, ConfigFileName)
      && KillBySearch(key) in Clean(q, rec, cache).effects
      && key != ProcessKey(other.seqId)
  {
    assert ProcessKey(rec.seqId)[|KeyPrefix|..] == rec.seqId;
    assert ProcessKey(other.seqId)[|KeyPrefix|..] == other.seqId;
  }

  /**
   * `run`: find a port, write the config file, start the proxy, then load the rules; the first
   * rejection ends it. The config write is synchronous inside `generateConfigFile`, so a write that
   * fails rejects the run before the proxy is spawned.
   */
  function Run(p: Whistle, rec: Record, w: World, cache: Option<LeaseStore.Cache>): (r: Act<Whistle>)
    requires Sound(cache)
    ensures Sound(r.cache) && r.record == rec
  {
    var found := FindPort(p, rec, w, cache);
    if found.Failure? then Act([], found.error.state, rec, cache, Rejected(found.error.error))
    else
      var q := found.value.0;
      var config := GenerateConfigFile(q, rec);
      if config.Failure? then Act([], q, rec, found.value.1, Rejected(config.error))
      else
        var write := WriteFile(q.configFile.value);
        if w.settle(write).Rejected? then Act([write], q, rec, found.value.1, w.settle(write))
        else
          var started := Start(q, rec, w, found.value.1);
          if started.outcome.Rejected? then started.(effects := [write] + started.effects)
          else
            var use := UseEffect(q);
            started.(effects := [write] + started.effects + [use], outcome := w.settle(use))
  }

  /**
   * A config write that fails ends `run` with that failure: the write is the only effect, so the
   * proxy is never spawned and no pid or port is recorded.
   */
  lemma FailedWriteStopsRun(p: Whistle, rec: Record, w: World, cache: Option<LeaseStore.Cache>)
    requires Sound(cache)
    requires FindPort(p, rec, w, cache).Success?
    requires GenerateConfigFile(FindPort(p, rec, w, cache).value.0, rec).Success?
    requires w.settle(WriteFile(FindPort(p, rec, w, cache).value.0.configFile.value)).Rejected?
    ensures var found := FindPort(p, rec, w, cache).value;
      var r := Run(p, rec, w, cache);
      && r.effects == [WriteFile(found.0.configFile.value)]
      && r.outcome == w.settle(WriteFile(found.0.configFile.value))
      && r.cache == found.1
      && forall e :: e in r.effects ==> !e.Spawn?
  {
  }

  /**
   * The order of `run`: the config file is written before the proxy starts, and the rules are
   * loaded into it last, on the port `findPort` settled on; a run that got that far has the port
   * remembered in the `lastUsedWhistle` slot.
   */
  lemma RunOrder(p: Whistle, rec: Record, w: World, cache: Option<LeaseStore.Cache>)
    requires Sound(cache)
    requires rec.seqId != LeaseStore.SlotKey(SlotName)
    ensures var r := Run(p, rec, w, cache);
      r.outcome.Resolved? ==>
        && r.effects == [WriteFile(r.state.configFile.value), StartEffect(r.state), UseEffect(r.state)]
        && (forall e :: e in r.effects ==> w.settle(e).Resolved?)
        && r.state.port != 0 && (p.port != 0 ==> r.state == p)
        && LeaseStore.GetLastUsedPort(SlotName, r.cache) == Some(r.state.port)
  {
    var r := Run(p, rec, w, cache);
    if r.outcome.Resolved? {
      ResolvedRun(p, rec, w, cache);
      var found := FindPort(p, rec, w, cache).value;
      StartRemembersPort(found.0, rec, w, found.1);
    }
  }

  /** A resolved `run` found a port, wrote the config file successfully, started the proxy and loaded the rules, in that order. */
  lemma ResolvedRun(p: Whistle, rec: Record, w: World, cache: Option<LeaseStore.Cache>)
    requires Sound(cache)
    requires Run(p, rec, w, cache).outcome.Resolved?
    ensures FindPort(p, rec, w, cache).Success?
    ensures var found := FindPort(p, rec, w, cache).value;
      var started := Start(found.0, rec, w, found.1);
      && GenerateConfigFile(found.0, rec).Success?
      && w.settle(WriteFile(found.0.configFile.value)).Resolved?
      && started.outcome.Resolved?
      && Run(p, rec, w, cache).state == found.0
      && Run(p, rec, w, cache).cache == started.cache
      && Run(p, rec, w, cache).effects == [WriteFile(found.0.configFile.value), StartEffect(found.0), UseEffect(found.0)]
  {
    var f := FindPort(p, rec, w, cache);
    assert f.Success?;
    var q := f.value.0;
    assert GenerateConfigFile(q, rec).Success?;
    assert w.settle(WriteFile(q.configFile.value)).Resolved?;
    assert Start(q, rec, w, f.value.1).outcome.Resolved?;
    RunPastStart(p, rec, w, cache);
    var started := Start(q, rec, w, f.value.1);
    Stage.Bracketed(WriteFile(q.configFile.value), started.effects, UseEffect(q), StartEffect(q));
  }

  /** Past a started proxy, `run` adds the config write before the spawn and the rules load after it. */
  lemma RunPastStart(p: Whistle, rec: Record, w: World, cache: Option<LeaseStore.Cache>)
    requires Sound(cache)
    requires FindPort(p, rec, w, cache).Success?
    requires GenerateConfigFile(FindPort(p, rec, w, cache).value.0, rec).Success?
    requires w.settle(WriteFile(FindPort(p, rec, w, cache).value.0.configFile.value)).Resolved?
    requires Start(FindPort(p, rec, w, cache).value.0, rec, w, FindPort(p, rec, w, cache).value.1).outcome.Resolved?
    ensures Run(p, rec, w, cache).state == FindPort(p, rec, w, cache).value.0
    ensures Run(p, rec, w, cache).cache == Start(FindPort(p, rec, w, cache).value.0, rec, w, FindPort(p, rec, w, cache).value.1).cache
    ensures var found := FindPort(p, rec, w, cache).value;
      Run(p, rec, w, cache).effects == [WriteFile(found.0.configFile.value)] + Start(found.0, rec, w, found.1).effects + [UseEffect(found.0)]
  {
  }

  /**
   * `getLastUsedWhistlePort()`: the remembered port if a single retry (two GETs) reaches the proxy
   * on it; a remembered proxy that does not answer has its slot reset to 0. Returns the port found
   * and the cache afterwards.
   */
  function GetLastUsedWhistlePort(w: World, cache: Option<LeaseStore.Cache>): (r: (Option<int>, Option<LeaseStore.Cache>))
    requires Sound(cache)
    ensures Sound(r.1)
    ensures r.0.Some? ==> r.0 == LeaseStore.GetLastUsedPort(SlotName, cache) && r.0.value != 0 && r.1 == cache
  {
    var port := LeaseStore.GetLastUsedPort(SlotName, cache);
    if port.None? || port.value == 0 then (None, cache)
    else
      var check := CheckAndWaitURLAvailable(w.up(CheckUrl(port.value)), CheckOptions(Some(1), None, None));
      if check.Available? then (Some(port.value), cache)
      else (None, Some(LeaseStore.SaveLastUsedPort(SlotName, 0, w.now, cache)))
  }

  /**
   * What the lookup promises: a port comes back exactly when one is remembered and one of two GETs
   * of its check URL succeeds; otherwise a remembered port is forgotten, and asking again then
   * returns nothing without polling and changes nothing.
   */
  lemma LastUsedPortLookup(w: World, w2: World, cache: Option<LeaseStore.Cache>)
    requires Sound(cache)
    ensures var port := LeaseStore.GetLastUsedPort(SlotName, cache);
      var r := GetLastUsedWhistlePort(w, cache);
      && (r.0.Some? <==> port.Some? && port.value != 0 && (w.up(CheckUrl(port.value))(0) || w.up(CheckUrl(port.value))(1)))
      && (r.0.None? ==> LeaseStore.GetLastUsedPort(SlotName, r.1) == (if port.Some? && port.value != 0 then Some(0) else port))
      && (r.0.None? ==> GetLastUsedWhistlePort(w2, r.1) == (None, r.1))
  {
    var port := LeaseStore.GetLastUsedPort(SlotName, cache);
    var r := GetLastUsedWhistlePort(w, cache);
    if port.Some? && port.value != 0 {
      var up := w.up(CheckUrl(port.value));
      var check := CheckAndWaitURLAvailable(up, CheckOptions(Some(1), None, None));
      assert check == Attempts(up, 0, 1, 0);
      if !up(0) {
        assert check == Attempts(up, 1, 1, 1);
      }
      LeaseStore.LastUsedRoundTrip(SlotName, SlotName, 0, w.now, cache);
    }
  }
}
