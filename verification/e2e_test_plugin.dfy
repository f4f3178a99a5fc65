/**
 * E2ETest.js: the stage that installs and builds the end-to-end test project, starts a virtual
 * display when the environment asks for one, runs the tests against the whistle proxy's port,
 * stops the display, and archives the coverage and build output.
 */
module E2ETestPlugin {
  import opened Wrappers
  import opened Js
  import opened Util
  import opened Lodash
  import opened TestRecord
  import opened Stage
  import BasePlugin
  import LeaseStore
  import Text

  const DefaultName: string := "pluginE2ETest"
  /** The end-to-end project relative to the DWT directory. */
  const DefaultRoot: string := "../matman-app"
  const ReportDir: string := "e2e_test_report"
  const CoverageDir: string := "coverage"
  const DefaultInstallText: string := "npm install"
  const DefaultBuildText: string := "npm run build"
  const StartXvfb: string := "xvfb.startSync"
  const StopXvfb: string := "xvfb.stopSync"
  /** Collecting the coverage report of the build; its failure is only logged. */
  const CreateCoverage: string := "createE2ECoverage"
  /** Copying the build output and coverage into the output directory; its failure is only logged. */
  const CopyBuildOutput: string := "copyBuildOutputToArchive"

  /** The constructor options the model keeps; `onBeforeTest` is recorded by whether it is a function. */
  datatype Options = Options(
    shouldSkip: BasePlugin.SkipOption,
    enableTest: Value,
    rootPath: Option<string>,
    installCmd: Option<StrOrFunc<Record>>,
    buildCmd: Option<StrOrFunc<Record>>,
    testCmd: Option<StrOrFunc<Record>>,
    getWhistlePort: Option<Record -> Value>,
    onBeforeTest: bool)

  /** The stage's fields; `testCmd` is `None` while the default command is in use. */
  datatype E2ETest = E2ETest(
    base: BasePlugin.Plugin,
    enableTest: bool,
    rootPath: string,
    outputPath: string,
    coverageOutputPath: string,
    installCmd: StrOrFunc<Record>,
    buildCmd: StrOrFunc<Record>,
    testCmd: Option<StrOrFunc<Record>>,
    getWhistlePort: Record -> Value,
    onBeforeTest: bool)

  /** The default `getWhistlePort`: no proxy. */
  function NoProxy(rec: Record): Value {
    Num(0)
  }

  /** The default test command: `mocha` through `npx`, told the proxy's port when there is one. */
  function DefaultTestCommand(whistlePort: Value): (r: string)
    ensures !Truthy(whistlePort) ==> r == "npx mocha"
    ensures Truthy(whistlePort) ==> Text.OccursAt(r, "WHISTLE_PORT=" + Interpolated(whistlePort), |"npx cross-env "|)
  {
    if Truthy(whistlePort) then
      PortSetting(Interpolated(whistlePort));
      "npx cross-env " + ("WHISTLE_PORT=" + Interpolated(whistlePort)) + " mocha"
    else "npx mocha"
  }

  /** The port setting sits right after `npx cross-env `. */
  lemma PortSetting(port: string)
    ensures Text.OccursAt("npx cross-env " + ("WHISTLE_PORT=" + port) + " mocha", "WHISTLE_PORT=" + port, |"npx cross-env "|)
  {
    var setting := "WHISTLE_PORT=" + port;
    var s := "npx cross-env " + setting + " mocha";
    assert s[14..14 + |setting|] == setting;
  }

  /** The constructor: falsy options fall back to their defaults; only a boolean `enableTest` is taken. */
  function Create(name: string, opts: Options): (e: E2ETest)
    ensures e.base == BasePlugin.Create(if name != "" then name else DefaultName, opts.shouldSkip)
    ensures e.enableTest == BoolOr(opts.enableTest, true)
    ensures e.rootPath == TextOr(opts.rootPath, DefaultRoot)
    ensures e.outputPath == "" && e.coverageOutputPath == ""
    ensures CmdGiven(opts.installCmd) ==> e.installCmd == opts.installCmd.value
    ensures !CmdGiven(opts.installCmd) ==> forall rec :: FromStrOrFunc(e.installCmd, rec) == DefaultInstallText
    ensures CmdGiven(opts.buildCmd) ==> e.buildCmd == opts.buildCmd.value
    ensures !CmdGiven(opts.buildCmd) ==> forall rec :: FromStrOrFunc(e.buildCmd, rec) == DefaultBuildText
    ensures e.testCmd.Some? <==> CmdGiven(opts.testCmd)
    ensures e.testCmd.Some? ==> e.testCmd == opts.testCmd
    ensures opts.getWhistlePort.Some? ==> e.getWhistlePort == opts.getWhistlePort.value
    ensures opts.getWhistlePort.None? ==> forall rec :: e.getWhistlePort(rec) == Num(0)
    ensures e.onBeforeTest == opts.onBeforeTest
  {
    E2ETest(
      BasePlugin.Create(if name != "" then name else DefaultName, opts.shouldSkip),
      BoolOr(opts.enableTest, true),
      TextOr(opts.rootPath, DefaultRoot), "", "",
      CmdOr(opts.installCmd, Computed(_ => DefaultInstallText)),
      CmdOr(opts.buildCmd, Computed(_ => DefaultBuildText)),
      if opts.testCmd.None? || (opts.testCmd.value.Literal? && opts.testCmd.value.s == "") then None else opts.testCmd,
      if opts.getWhistlePort.Some? then opts.getWhistlePort.value else NoProxy,
      opts.onBeforeTest)
  }

  /** The command `runTest` runs: the user's, or the default one told the port `getWhistlePort` gives. */
  function TestCommand(e: E2ETest, rec: Record): string {
    if e.testCmd.Some? then FromStrOrFunc(e.testCmd.value, rec) else DefaultTestCommand(e.getWhistlePort(rec))
  }

  /** Without a test command or a port function, the tests run as plain `npx mocha`. */
  lemma DefaultRunsPlainMocha(rec: Record)
    ensures TestCommand(Create("", Options(BasePlugin.SkipValue(Undefined), Undefined, None, None, None, None, None, false)), rec) == "npx mocha"
  {
  }

  /** With a port function that gives a port, the default test command passes exactly that port. */
  lemma DefaultPassesThePort(e: E2ETest, rec: Record, port: int)
    requires e.testCmd.None? && e.getWhistlePort(rec) == Num(port) && port != 0
    ensures TestCommand(e, rec) == "npx cross-env " + ("WHISTLE_PORT=" + Text.IntText(port)) + " mocha"
    ensures Text.OccursAt(TestCommand(e, rec), "WHISTLE_PORT=" + Text.IntText(port), 14)
  {
    assert Interpolated(Num(port)) == Text.IntText(port);
  }

  /**
   * `init`: the root made absolute against `basePath`, the report and coverage directories inside
   * the record's output directory, and both exported as paths relative to it.
   */
  function Init(e: E2ETest, rec: Record, ops: PathOps): (r: (E2ETest, Record))
    requires e.rootPath != ""
    ensures var out := ops.join(rec.outputPath, ReportDir);
      var cov := ops.join(out, CoverageDir);
      && r.0 == e.(base := BasePlugin.Init(e.base), rootPath := r.0.rootPath, outputPath := out, coverageOutputPath := cov)
      && Success(r.0.rootPath) == GetAbsolutePath(ops, Some(rec.basePath), Some(e.rootPath))
      && r.1 == AddTestCustomParams(rec, map[
           "e2eTestRelativePathToOutput" := JStr(ops.relative(rec.outputPath, out)),
           "e2eTestCoverageRelativePathToOutput" := JStr(ops.relative(rec.outputPath, cov))])
  {
    var out := ops.join(rec.outputPath, ReportDir);
    var cov := ops.join(out, CoverageDir);
    var root := GetAbsolutePath(ops, Some(rec.basePath), Some(e.rootPath)).value;
    (e.(base := BasePlugin.Init(e.base), rootPath := root, outputPath := out, coverageOutputPath := cov),
     AddTestCustomParams(rec, map[
       "e2eTestRelativePathToOutput" := JStr(ops.relative(rec.outputPath, out)),
       "e2eTestCoverageRelativePathToOutput" := JStr(ops.relative(rec.outputPath, cov))]))
  }

  /** Where the display is started: after the install, when there is one, and the build. */
  function StartIndex(rec: Record): nat {
    if rec.isDev then 1 else 2
  }

  /** Where the tests run: after the display is started, when it is, and the `onBeforeTest` hook. */
  function TestIndex(e: E2ETest, rec: Record, useXvfb: bool): nat {
    StartIndex(rec) + (if useXvfb then 1 else 0) + (if e.onBeforeTest then 1 else 0)
  }

  /**
   * The steps of `run`: install (not in development mode), build, start the display (when
   * `USE_XVFB` is set), the `onBeforeTest` hook when it is a function, the tests, stop the display
   * (when it was started), and the two archiving tasks, whose failures are swallowed.
   */
  function Steps(e: E2ETest, rec: Record, useXvfb: bool): (s: seq<Step>)
    ensures |s| == TestIndex(e, rec, useXvfb) + 3 + (if useXvfb then 1 else 0)
    ensures forall i :: 0 <= i < |s| ==> (s[i].swallowed <==> i >= |s| - 2)
  {
    var pro := Prologue(e, rec, useXvfb);
    var rest := [Step(Exec(TestCommand(e, rec), Some(e.rootPath)), false)]
      + (if useXvfb then [Step(Task(StopXvfb), false)] else [])
      + [Step(Task(CreateCoverage), true), Step(Task(CopyBuildOutput), true)];
    assert forall i :: 0 <= i < |rest| ==> (rest[i].swallowed <==> i >= |rest| - 2);
    pro + rest
  }

  /** The steps before the tests: install (not in development mode) and build, the display, the hook. */
  function Prologue(e: E2ETest, rec: Record, useXvfb: bool): (s: seq<Step>)
    ensures |s| == TestIndex(e, rec, useXvfb)
    ensures !rec.isDev ==> s[0].effect == Exec(FromStrOrFunc(e.installCmd, rec), Some(e.rootPath))
    ensures s[StartIndex(rec) - 1].effect == Exec(FromStrOrFunc(e.buildCmd, rec), Some(e.rootPath))
    ensures useXvfb ==> s[StartIndex(rec)].effect == Task(StartXvfb)
    ensures forall i :: 0 <= i < |s| ==> !s[i].swallowed && s[i].effect != Task(StopXvfb)
  {
    var build := Preparation(e, rec);
    var start := if useXvfb then [Step(Task(StartXvfb), false)] else [];
    var hook := if e.onBeforeTest then [Step(Hook("onBeforeTest"), false)] else [];
    assert (build + start + hook)[..StartIndex(rec)] == build;
    build + start + hook
  }

  /** The install (not in development mode) and the build, in the app's root. */
  function Preparation(e: E2ETest, rec: Record): (s: seq<Step>)
    ensures |s| == StartIndex(rec)
    ensures !rec.isDev ==> s[0].effect == Exec(FromStrOrFunc(e.installCmd, rec), Some(e.rootPath))
    ensures s[|s| - 1].effect == Exec(FromStrOrFunc(e.buildCmd, rec), Some(e.rootPath))
    ensures forall i :: 0 <= i < |s| ==> !s[i].swallowed && s[i].effect.Exec?
  {
    var root := Some(e.rootPath);
    (if rec.isDev then [] else [Step(Exec(FromStrOrFunc(e.installCmd, rec), root), false)])
    + [Step(Exec(FromStrOrFunc(e.buildCmd, rec), root), false)]
  }

  /** The record once the display has been started, when the environment asks for one. */
  function Displayed(rec: Record, useXvfb: bool, display: Xvfb): Record {
    if useXvfb then rec.(xvfb := Some(display)) else rec
  }

  /**
   * `run`: the steps in order. Once the display has started, the record holds it (`xvfb`), even if
   * a later step fails; only when the run completes is `shouldRunE2ETest` exported.
   */
  function Run(e: E2ETest, rec: Record, w: World, cache: Option<LeaseStore.Cache>, display: Xvfb): (r: Act<E2ETest>)
    ensures r.state == e && r.cache == cache
  {
    var steps := Steps(e, rec, w.useXvfb);
    var done := Chain(steps, w);
    var started := if w.useXvfb && done.0 > StartIndex(rec) + 1 then rec.(xvfb := Some(display)) else rec;
    if done.1.Rejected? then Act(Effects(steps[..done.0]), e, started, cache, done.1)
    else Act(Effects(steps), e, AddTestCustomParams(started, map["shouldRunE2ETest" := JBool(BasePlugin.ShouldRun(e.base, started))]), cache, Resolved)
  }

  /**
   * The order of `run`: the install first outside development mode, the build before the tests,
   * the display started before and stopped after them, and the two archiving tasks last.
   */
  lemma StepOrder(e: E2ETest, rec: Record, useXvfb: bool)
    ensures var s := Effects(Steps(e, rec, useXvfb));
      var t := TestIndex(e, rec, useXvfb);
      && (!rec.isDev ==> s[0] == Exec(FromStrOrFunc(e.installCmd, rec), Some(e.rootPath)))
      && s[StartIndex(rec) - 1] == Exec(FromStrOrFunc(e.buildCmd, rec), Some(e.rootPath))
      && s[t] == Exec(TestCommand(e, rec), Some(e.rootPath))
      && (useXvfb ==> s[StartIndex(rec)] == Task(StartXvfb) && s[t + 1] == Task(StopXvfb))
      && s[|s| - 2] == Task(CreateCoverage) && s[|s| - 1] == Task(CopyBuildOutput)
  {
    var steps := Steps(e, rec, useXvfb);
    var t := TestIndex(e, rec, useXvfb);
    assert steps[StartIndex(rec) - 1].effect == Exec(FromStrOrFunc(e.buildCmd, rec), Some(e.rootPath));
    assert steps[t].effect == Exec(TestCommand(e, rec), Some(e.rootPath));
    if useXvfb {
      assert steps[StartIndex(rec)].effect == Task(StartXvfb);
      assert steps[t + 1].effect == Task(StopXvfb);
    }
  }

  /**
   * The run succeeds exactly when every step but the two archiving tasks does, whatever those two
   * do; it then exports whether the stage runs, and a failed run exports nothing.
   */
  lemma RunResult(e: E2ETest, rec: Record, w: World, cache: Option<LeaseStore.Cache>, display: Xvfb)
    ensures var s := Effects(Steps(e, rec, w.useXvfb));
      var r := Run(e, rec, w, cache, display);
      && (r.outcome.Resolved? <==> forall i :: 0 <= i < |s| - 2 ==> w.settle(s[i]).Resolved?)
      && (r.outcome.Resolved? ==>
            var st := Displayed(rec, w.useXvfb, display);
            && r.effects == s
            && r.record.testCustomParams["shouldRunE2ETest"] == JBool(BasePlugin.ShouldRun(e.base, st))
            && r.record.xvfb == st.xvfb)
      && (r.outcome.Rejected? ==>
            (&& 0 < |r.effects| <= |s| - 2
             && r.effects == s[..|r.effects|]
             && r.outcome == w.settle(s[|r.effects| - 1])
             && r.record == rec.(xvfb := r.record.xvfb)))
  {
    var steps := Steps(e, rec, w.useXvfb);
    ChainSwallowedTail(steps, w, 2);
    RunFollowsChain(e, rec, w, cache, display);
    RunExports(e, rec, w, cache, display);
  }

  /** A successful `run` exports the stage's answer on the record with the display recorded. */
  lemma RunExports(e: E2ETest, rec: Record, w: World, cache: Option<LeaseStore.Cache>, display: Xvfb)
    ensures var r := Run(e, rec, w, cache, display);
      var st := Displayed(rec, w.useXvfb, display);
      r.outcome.Resolved? ==>
        r.record.testCustomParams["shouldRunE2ETest"] == JBool(BasePlugin.ShouldRun(e.base, st)) && r.record.xvfb == st.xvfb
  {
    RunFollowsChain(e, rec, w, cache, display);
    var st := Displayed(rec, w.useXvfb, display);
    ExportedRun(st, BasePlugin.ShouldRun(e.base, st));
  }

  /** Exporting `shouldRunE2ETest` sets that key to the stage's answer and keeps the display. */
  lemma ExportedRun(st: Record, runs: bool)
    ensures var r := AddTestCustomParams(st, map["shouldRunE2ETest" := JBool(runs)]);
      r.testCustomParams["shouldRunE2ETest"] == JBool(runs) && r.xvfb == st.xvfb
  {
    var m := map["shouldRunE2ETest" := JBool(runs)];
    assert "shouldRunE2ETest" in m && !m["shouldRunE2ETest"].JUndefined? && !m["shouldRunE2ETest"].JObj?;
  }

  /** `run` settles as its chain of steps, keeping the effects the chain carried out. */
  lemma RunFollowsChain(e: E2ETest, rec: Record, w: World, cache: Option<LeaseStore.Cache>, display: Xvfb)
    ensures var steps := Steps(e, rec, w.useXvfb);
      var done := Chain(steps, w);
      var r := Run(e, rec, w, cache, display);
      && r.outcome == done.1
      && (done.1.Rejected? ==> r.effects == Effects(steps[..done.0]) && r.record == rec.(xvfb := r.record.xvfb))
      && (done.1.Resolved? ==>
            var st := Displayed(rec, w.useXvfb, display);
            && r.effects == Effects(steps)
            && r.record == AddTestCustomParams(st, map["shouldRunE2ETest" := JBool(BasePlugin.ShouldRun(e.base, st))]))
  {
  }

  /**
   * A failing test run leaves the display running: the record holds the started display and the
   * run's effects never stop it.
   */
  lemma FailedTestLeavesDisplay(e: E2ETest, rec: Record, w: World, cache: Option<LeaseStore.Cache>, display: Xvfb)
    requires w.useXvfb
    requires forall i :: 0 <= i < TestIndex(e, rec, true) ==> w.settle(Effects(Steps(e, rec, true))[i]).Resolved?
    requires w.settle(Exec(TestCommand(e, rec), Some(e.rootPath))).Rejected?
    ensures var r := Run(e, rec, w, cache, display);
      && r.outcome.Rejected?
      && r.record.xvfb == Some(display)
      && Task(StopXvfb) !in r.effects
  {
    var steps := Steps(e, rec, true);
    var t := TestIndex(e, rec, true);
    StepOrder(e, rec, true);
    ChainPrefixStops(steps, w, t);
    var r := Run(e, rec, w, cache, display);
    var pro := Prologue(e, rec, true);
    assert r.effects == Effects(steps[..t + 1]);
    forall i | 0 <= i <= t ensures r.effects[i] != Task(StopXvfb) {
      assert r.effects[i] == steps[i].effect;
      if i < t {
        assert steps[i] == pro[i];
      }
    }
  }

  /** `beforeRun` and `afterRun` add nothing to the base hooks. */
  function BeforeRun(e: E2ETest, rec: Record, cache: Option<LeaseStore.Cache>): (r: Act<E2ETest>)
    ensures r.effects == [] && r.outcome == Resolved && r.state == e && r.record == rec && r.cache == cache
  {
    Act([], e, rec, cache, Resolved)
  }

  function AfterRun(e: E2ETest, rec: Record, cache: Option<LeaseStore.Cache>): (r: Act<E2ETest>)
    ensures r.effects == [] && r.outcome == Resolved && r.state == e && r.record == rec && r.cache == cache
  {
    Act([], e, rec, cache, Resolved)
  }
}
