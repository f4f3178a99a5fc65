/**
 * UnitTest.js: the stage that installs the project's dependencies, runs its unit tests, then runs
 * them again under the coverage tool, and exports whether unit tests ran.
 */
module UnitTestPlugin {
  import opened Wrappers
  import opened Js
  import opened Util
  import opened Lodash
  import opened TestRecord
  import opened Stage
  import BasePlugin
  import LeaseStore
  import Text

  const DefaultName: string := "pluginUnitTest"
  /** The project root relative to the DWT directory. */
  const DefaultRoot: string := "../../"
  const ReportDir: string := "unit_test_report"
  const CoverageDir: string := "coverage"
  const DefaultInstallText: string := "tnpm install"
  /** The default test command is `npx` running this. */
  const DefaultTestTool: string := "cross-env BABEL_ENV=test mocha"
  const DefaultTestText: string := "npx " + DefaultTestTool
  const CoveragePrefix: string := "npx nyc --silent "

  /** The constructor options the model keeps; the two hooks are recorded by whether they are functions. */
  datatype Options = Options(
    shouldSkip: BasePlugin.SkipOption,
    rootPath: Option<string>,
    installCmd: Option<StrOrFunc<Record>>,
    testCmd: Option<StrOrFunc<Record>>,
    coverageCmd: Option<StrOrFunc<(string, Record)>>,
    onBeforeTest: bool,
    coverageCompleteCheck: bool)

  datatype UnitTest = UnitTest(
    base: BasePlugin.Plugin,
    rootPath: string,
    outputPath: string,
    coverageOutputPath: string,
    installCmd: StrOrFunc<Record>,
    testCmd: StrOrFunc<Record>,
    coverageCmd: StrOrFunc<(string, Record)>,
    onBeforeTest: bool,
    coverageCompleteCheck: bool)

  /**
   * The test command with its `npx` prefix removed: a leading `npx` and the run of whitespace after it become a
   * single space; a command not starting that way is unchanged.
   */
  function StripNpx(cmd: string): (r: string)
    ensures |cmd| >= 3 && cmd[..3] == "npx" && Text.SpaceRun(cmd[3..]) > 0 ==>
      r == " " + cmd[3 + Text.SpaceRun(cmd[3..])..]
    ensures !(|cmd| >= 3 && cmd[..3] == "npx" && Text.SpaceRun(cmd[3..]) > 0) ==> r == cmd
  {
    if |cmd| >= 3 && cmd[..3] == "npx" && Text.SpaceRun(cmd[3..]) > 0 then " " + cmd[3 + Text.SpaceRun(cmd[3..])..]
    else cmd
  }

  /** A stripped command never starts with `npx` again, so stripping twice is stripping once. */
  lemma StripNpxIdempotent(cmd: string)
    ensures StripNpx(StripNpx(cmd)) == StripNpx(cmd)
  {
    var r := StripNpx(cmd);
    if |cmd| >= 3 && cmd[..3] == "npx" && Text.SpaceRun(cmd[3..]) > 0 {
      assert r[0] == ' ';
      assert |r| >= 3 ==> r[..3][0] == ' ';
    }
  }

  /** Nothing but the prefix is lost: the stripped command ends with everything after the `npx` and its spaces. */
  lemma StripNpxKeepsTheRest(cmd: string)
    ensures var r := StripNpx(cmd);
      (|cmd| >= 3 && cmd[..3] == "npx" && Text.SpaceRun(cmd[3..]) > 0) ==>
        && r[0] == ' '
        && r[1..] == cmd[3 + Text.SpaceRun(cmd[3..])..]
        && (forall i :: 3 <= i < 3 + Text.SpaceRun(cmd[3..]) ==> Text.IsJsSpace(cmd[i]))
        && (3 + Text.SpaceRun(cmd[3..]) < |cmd| ==> !Text.IsJsSpace(cmd[3 + Text.SpaceRun(cmd[3..])]))
  {
    if |cmd| >= 3 && cmd[..3] == "npx" && Text.SpaceRun(cmd[3..]) > 0 {
      var n := Text.SpaceRun(cmd[3..]);
      forall i | 3 <= i < 3 + n ensures Text.IsJsSpace(cmd[i]) {
        assert cmd[3..][i - 3] == cmd[i];
      }
      if 3 + n < |cmd| {
        assert cmd[3..][n] == cmd[3 + n];
      }
    }
  }

  /** The default coverage command: the test command, `npx` stripped, run under `nyc --silent`. */
  function DefaultCoverage(testCommand: string): string {
    CoveragePrefix + StripNpx(testCommand)
  }

  /** The constructor: every falsy option falls back to its default. */
  function Create(name: string, opts: Options): (u: UnitTest)
    ensures u.base == BasePlugin.Create(if name != "" then name else DefaultName, opts.shouldSkip)
    ensures u.rootPath == TextOr(opts.rootPath, DefaultRoot)
    ensures CmdGiven(opts.installCmd) ==> u.installCmd == opts.installCmd.value
    ensures !CmdGiven(opts.installCmd) ==> forall rec :: FromStrOrFunc(u.installCmd, rec) == DefaultInstallText
    ensures CmdGiven(opts.testCmd) ==> u.testCmd == opts.testCmd.value
    ensures !CmdGiven(opts.testCmd) ==> forall rec :: FromStrOrFunc(u.testCmd, rec) == DefaultTestText
    ensures CmdGiven(opts.coverageCmd) ==> u.coverageCmd == opts.coverageCmd.value
    ensures !CmdGiven(opts.coverageCmd) ==>
      forall args :: FromStrOrFunc(u.coverageCmd, args) == DefaultCoverage(args.0)
    ensures u.outputPath == "" && u.coverageOutputPath == ""
    ensures u.onBeforeTest == opts.onBeforeTest && u.coverageCompleteCheck == opts.coverageCompleteCheck
  {
    UnitTest(
      BasePlugin.Create(if name != "" then name else DefaultName, opts.shouldSkip),
      TextOr(opts.rootPath, DefaultRoot), "", "",
      CmdOr(opts.installCmd, Computed(_ => DefaultInstallText)),
      CmdOr(opts.testCmd, Computed(_ => DefaultTestText)),
      CmdOr(opts.coverageCmd, Computed((args: (string, Record)) => DefaultCoverage(args.0))),
      opts.onBeforeTest, opts.coverageCompleteCheck)
  }

  /** `npx`, one space and a word: the prefix becomes a single space in front of the word. */
  lemma StripOneSpace(tail: string)
    requires |tail| > 0 && !Text.IsJsSpace(tail[0])
    ensures StripNpx("npx " + tail) == " " + tail
  {
    var cmd := "npx " + tail;
    assert cmd[..3] == "npx";
    assert cmd[3..] == [' '] + tail;
    assert ([' '] + tail)[1..] == tail;
    assert Text.SpaceRun(cmd[3..]) == 1;
    assert cmd[4..] == tail;
  }

  /** `npx` and its one space stripped from the default test command. */
  lemma DefaultTestStripped()
    ensures StripNpx(DefaultTestText) == " " + DefaultTestTool
  {
    assert DefaultTestTool[0] == 'c';
    StripOneSpace(DefaultTestTool);
  }

  /** The default test command spelled out. */
  lemma DefaultTestLiteral()
    ensures DefaultTestText == "npx cross-env BABEL_ENV=test mocha"
  {
    var lit := "npx cross-env BABEL_ENV=test mocha";
    assert lit[..4] == "npx ";
    ToolLiteral(lit[4..]);
    assert lit == lit[..4] + lit[4..];
  }

  /** The default test tool spelled out, read off any text that spells it. */
  lemma ToolLiteral(t: string)
    requires t == "cross-env BABEL_ENV=test mocha"
    ensures t == DefaultTestTool
  {
    forall i | 0 <= i < 30 ensures t[i] == DefaultTestTool[i] {
    }
  }

  /** The default coverage command spelled out: the stripped prefix leaves two spaces after `--silent`. */
  lemma DefaultCoverageLiteral()
    ensures CoveragePrefix + (" " + DefaultTestTool) == "npx nyc --silent  cross-env BABEL_ENV=test mocha"
  {
    assert CoveragePrefix + (" " + DefaultTestTool) == "npx nyc --silent  " + DefaultTestTool;
    CoverageJoin();
  }

  /** The doubled-space prefix and the test tool run together into the coverage command. */
  lemma CoverageJoin()
    ensures "npx nyc --silent  " + DefaultTestTool == "npx nyc --silent  cross-env BABEL_ENV=test mocha"
  {
  }

  /** With no command options the coverage run is the default test command under `nyc`, with a doubled space. */
  lemma DefaultCommands(rec: Record)
    ensures var u := Create("", Options(BasePlugin.SkipValue(Undefined), None, None, None, None, false, false));
      && FromStrOrFunc(u.installCmd, rec) == "tnpm install"
      && FromStrOrFunc(u.testCmd, rec) == "npx cross-env BABEL_ENV=test mocha"
      && FromStrOrFunc(u.coverageCmd, (FromStrOrFunc(u.testCmd, rec), rec)) == "npx nyc --silent  cross-env BABEL_ENV=test mocha"
  {
    DefaultTestLiteral();
    DefaultTestStripped();
    DefaultCoverageLiteral();
    var u := Create("", Options(BasePlugin.SkipValue(Undefined), None, None, None, None, false, false));
    assert FromStrOrFunc(u.testCmd, rec) == DefaultTestText;
    assert FromStrOrFunc(u.coverageCmd, (DefaultTestText, rec)) == DefaultCoverage(DefaultTestText);
  }

  /**
   * `init`: the root made absolute against `basePath`, the report and coverage directories inside
   * the record's output directory, and both exported as paths relative to it.
   */
  function Init(u: UnitTest, rec: Record, ops: PathOps): (r: (UnitTest, Record))
    requires u.rootPath != ""
    ensures var out := ops.join(rec.outputPath, ReportDir);
      var cov := ops.join(out, CoverageDir);
      && r.0 == u.(base := BasePlugin.Init(u.base), rootPath := r.0.rootPath, outputPath := out, coverageOutputPath := cov)
      && Success(r.0.rootPath) == GetAbsolutePath(ops, Some(rec.basePath), Some(u.rootPath))
      && r.1 == AddTestCustomParams(rec, map[
           "unitTestRelativePathToOutput" := JStr(ops.relative(rec.outputPath, out)),
           "unitTestCoverageRelativePathToOutput" := JStr(ops.relative(rec.outputPath, cov))])
  {
    var out := ops.join(rec.outputPath, ReportDir);
    var cov := ops.join(out, CoverageDir);
    var root := GetAbsolutePath(ops, Some(rec.basePath), Some(u.rootPath)).value;
    (u.(base := BasePlugin.Init(u.base), rootPath := root, outputPath := out, coverageOutputPath := cov),
     AddTestCustomParams(rec, map[
       "unitTestRelativePathToOutput" := JStr(ops.relative(rec.outputPath, out)),
       "unitTestCoverageRelativePathToOutput" := JStr(ops.relative(rec.outputPath, cov))]))
  }

  /** The test command for this run, computed once and reused by the coverage step. */
  function TestCommand(u: UnitTest, rec: Record): string {
    FromStrOrFunc(u.testCmd, rec)
  }

  /**
   * The steps of `run`: install (not in development mode, and untagged), the `onBeforeTest` hook
   * when it is a function, the tests, the coverage run of the same test command, and the
   * `coverageCompleteCheck` hook when it is a function. Nothing is swallowed.
   */
  function Steps(u: UnitTest, rec: Record): (s: seq<Step>)
    ensures forall i :: 0 <= i < |s| ==> !s[i].swallowed
  {
    var root := Some(u.rootPath);
    (if rec.isDev then [] else [Step(Exec(FromStrOrFunc(u.installCmd, rec), root), false)])
    + (if u.onBeforeTest then [Step(Hook("onBeforeTest"), false)] else [])
    + [Step(Exec(TestCommand(u, rec), root), false),
       Step(Exec(FromStrOrFunc(u.coverageCmd, (TestCommand(u, rec), rec)), root), false)]
    + (if u.coverageCompleteCheck then [Step(Hook("coverageCompleteCheck"), false)] else [])
  }

  /** `run`: the steps in order; only when all succeed is `shouldRunUnitTest` exported. */
  function Run(u: UnitTest, rec: Record, w: World, cache: Option<LeaseStore.Cache>): (r: Act<UnitTest>)
    ensures r.state == u && r.cache == cache
    ensures r.outcome.Resolved? ==> r.effects == Effects(Steps(u, rec))
    ensures r.outcome.Rejected? ==> r.record == rec
  {
    var steps := Steps(u, rec);
    var done := Chain(steps, w);
    if done.1.Rejected? then Act(Effects(steps[..done.0]), u, rec, cache, done.1)
    else Act(Effects(steps), u, AddTestCustomParams(rec, map["shouldRunUnitTest" := JBool(BasePlugin.ShouldRun(u.base, rec))]), cache, Resolved)
  }

  /** Where the test step sits: after the install, when there is one, and the `onBeforeTest` hook. */
  function TestIndex(u: UnitTest, rec: Record): nat {
    (if rec.isDev then 0 else 1) + (if u.onBeforeTest then 1 else 0)
  }

  /**
   * The tests run in the stage's root right before their coverage run, which wraps the very same
   * test command; the install comes first outside development mode, and in development mode
   * there is one step fewer.
   */
  lemma StepOrder(u: UnitTest, rec: Record)
    ensures var s := Effects(Steps(u, rec));
      && TestIndex(u, rec) + 1 < |s|
      && s[TestIndex(u, rec)] == Exec(TestCommand(u, rec), Some(u.rootPath))
      && s[TestIndex(u, rec) + 1] == Exec(FromStrOrFunc(u.coverageCmd, (TestCommand(u, rec), rec)), Some(u.rootPath))
      && (!rec.isDev ==> s[0] == Exec(FromStrOrFunc(u.installCmd, rec), Some(u.rootPath)))
      && |s| == TestIndex(u, rec) + 2 + (if u.coverageCompleteCheck then 1 else 0)
  {
    var steps := Steps(u, rec);
    var k := TestIndex(u, rec);
    assert steps[k].effect == Exec(TestCommand(u, rec), Some(u.rootPath));
    assert steps[k + 1].effect == Exec(FromStrOrFunc(u.coverageCmd, (TestCommand(u, rec), rec)), Some(u.rootPath));
  }

  /**
   * A run succeeds exactly when every step does, and then exports whether the stage runs; a
   * failed run stops at the step that failed and exports nothing.
   */
  lemma RunResult(u: UnitTest, rec: Record, w: World, cache: Option<LeaseStore.Cache>)
    ensures var s := Effects(Steps(u, rec));
      var r := Run(u, rec, w, cache);
      && (r.outcome.Resolved? <==> forall i :: 0 <= i < |s| ==> w.settle(s[i]).Resolved?)
      && (r.outcome.Resolved? ==> r.record.testCustomParams["shouldRunUnitTest"] == JBool(BasePlugin.ShouldRun(u.base, rec)))
      && (r.outcome.Rejected? ==>
            (0 < |r.effects| <= |s| && r.effects == s[..|r.effects|] && r.outcome == w.settle(s[|r.effects| - 1])))
  {
    var steps := Steps(u, rec);
    ChainResolves(steps, w);
    var done := Chain(steps, w);
    if done.1.Rejected? {
      assert Effects(steps[..done.0]) == Effects(steps)[..done.0];
    }
  }

  /** `beforeRun` and `afterRun` add nothing to the base hooks. */
  function BeforeRun(u: UnitTest, rec: Record, cache: Option<LeaseStore.Cache>): (r: Act<UnitTest>)
    ensures r.effects == [] && r.outcome == Resolved && r.state == u && r.record == rec && r.cache == cache
  {
    Act([], u, rec, cache, Resolved)
  }

  function AfterRun(u: UnitTest, rec: Record, cache: Option<LeaseStore.Cache>): (r: Act<UnitTest>)
    ensures r.effects == [] && r.outcome == Resolved && r.state == u && r.record == rec && r.cache == cache
  {
    Act([], u, rec, cache, Resolved)
  }
}
