/**
 * Archive.js: the last stage. It empties the output directory before the run; after the tests it
 * reads both test stages' reports, exports their results and the union verdict, writes the report
 * entry page and the run record, and zips the output directory.
 */
module ArchivePlugin {
  import opened Wrappers
  import opened Js
  import opened Util
  import opened Lodash
  import opened TestRecord
  import opened Stage
  import opened ArchiveReport
  import BasePlugin
  import LeaseStore

  const DefaultName: string := "pluginArchive"
  const ZipName: string := "output.zip"
  const IndexHtmlName: string := "index.html"
  const IndexDataName: string := "index-html.json"
  const RecordName: string := "test-record.json"
  /** The tag the pipeline shows the archived report under. */
  const ArchiveTag: string := "web自动化测试结果报告"

  /** What the stage reads of a test stage: its report directories and whether it runs for this record. */
  datatype TestView = TestView(outputPath: string, coverageOutputPath: string, shouldRun: bool)

  /** The object `getPlugins` returns; a `None` entry is `null`. `whistle` holds the proxy's config file name. */
  datatype PluginMap = PluginMap(e2e: Option<TestView>, unit: Option<TestView>, whistle: Option<string>)

  /** The default `getPlugins`: every entry `null`. */
  function NoPlugins(rec: Record): PluginMap {
    PluginMap(None, None, None)
  }

  /** The stage's fields; the paths are set by `init`. */
  datatype Archive = Archive(
    base: BasePlugin.Plugin,
    getPlugins: Record -> PluginMap,
    rootPath: string,
    outputZipPath: string,
    indexHtmlPath: string,
    indexHtmlDataPath: string,
    testRecordPath: string)

  /** The constructor; `getPlugins` is `None` when the option is not a function. */
  function Create(name: string, shouldSkip: BasePlugin.SkipOption, getPlugins: Option<Record -> PluginMap>): (a: Archive)
    ensures a.base == BasePlugin.Create(if name != "" then name else DefaultName, shouldSkip)
    ensures getPlugins.Some? ==> a.getPlugins == getPlugins.value
    ensures getPlugins.None? ==> a.getPlugins == NoPlugins
  {
    Archive(BasePlugin.Create(if name != "" then name else DefaultName, shouldSkip),
      if getPlugins.Some? then getPlugins.value else NoPlugins, "", "", "", "", "")
  }

  /**
   * `init`: the stage works in the record's output directory, names its four products there, and
   * exports the archive settings and the zip's path, both relative to the workspace.
   */
  function Init(a: Archive, rec: Record, ops: PathOps): (r: (Archive, Record))
    ensures r.0.base == BasePlugin.Init(a.base) && r.0.getPlugins == a.getPlugins
    ensures r.0.rootPath == rec.outputPath
    ensures && r.0.outputZipPath == ops.join(rec.outputPath, ZipName)
            && r.0.indexHtmlPath == ops.join(rec.outputPath, IndexHtmlName)
            && r.0.indexHtmlDataPath == ops.join(rec.outputPath, IndexDataName)
            && r.0.testRecordPath == ops.join(rec.outputPath, RecordName)
    ensures r.1 == AddTestCustomParams(rec, map[
      "archiveConfig" := JObj(map[
        "path" := JStr(ops.relative(rec.workspacePath, rec.outputPath)),
        "entryFile" := JStr(IndexHtmlName),
        "tag" := JStr(ArchiveTag)]),
      "outputZipRelativePath" := JStr(ops.relative(rec.workspacePath, ops.join(rec.outputPath, ZipName)))])
  {
    var root := rec.outputPath;
    (a.(base := BasePlugin.Init(a.base), rootPath := root,
        outputZipPath := ops.join(root, ZipName), indexHtmlPath := ops.join(root, IndexHtmlName),
        indexHtmlDataPath := ops.join(root, IndexDataName), testRecordPath := ops.join(root, RecordName)),
     AddTestCustomParams(rec, map[
       "archiveConfig" := JObj(map[
         "path" := JStr(ops.relative(rec.workspacePath, root)),
         "entryFile" := JStr(IndexHtmlName),
         "tag" := JStr(ArchiveTag)]),
       "outputZipRelativePath" := JStr(ops.relative(rec.workspacePath, ops.join(root, ZipName)))]))
  }

  /** `beforeRun`, which is `clean`: the output directory is removed, and a failure to remove it fails the hook. */
  function BeforeRun(a: Archive, rec: Record, w: World, cache: Option<LeaseStore.Cache>): (r: Act<Archive>)
    ensures r.effects == [RemovePath(a.rootPath)]
    ensures r.outcome == w.settle(RemovePath(a.rootPath))
    ensures r.state == a && r.record == rec && r.cache == cache
  {
    Act([RemovePath(a.rootPath)], a, rec, cache, w.settle(RemovePath(a.rootPath)))
  }

  /** `afterRun` adds nothing to the base hook. */
  function AfterRun(a: Archive, rec: Record, cache: Option<LeaseStore.Cache>): (r: Act<Archive>)
    ensures r.effects == [] && r.outcome == Resolved && r.state == a && r.record == rec && r.cache == cache
  {
    Act([], a, rec, cache, Resolved)
  }

  /** What a `null` stage entry throws when `run` reads its `outputPath`. */
  const NullStage: Thrown := TypeError("Cannot read properties of null (reading 'outputPath')")
  /** What a `null` whistle entry throws when the entry page lists its config file. */
  const NullWhistle: Thrown := TypeError("Cannot read properties of null (reading 'configFileName')")

  /** A stage's test result as the JSON object it is exported as. */
  function ResultJson(t: TestResult): Json {
    match t
    case Skipped(summary) => JObj(map["summary" := JStr(summary)])
    case Missing(summary) => JObj(map["summary" := JStr(summary)])
    case Reported(stats, duration) => JObj(map["stats" := StatsJson(stats), "duration" := JStr(duration)])
  }

  /** The keys of a `stats` object the model reads as counts. */
  const CountKeys: set<string> := {"failures", "skipped", "duration"}

  /** A `stats` object as the report holds it: its other keys unchanged, and the counts present exactly when set. */
  function StatsJson(s: Stats): Json {
    JObj((s.others - CountKeys)
      + (if s.failures.Some? then map["failures" := JNum(s.failures.value)] else map[])
      + (if s.skipped.Some? then map["skipped" := JNum(s.skipped.value)] else map[])
      + (if s.duration.Some? then map["duration" := JNum(s.duration.value)] else map[]))
  }

  /**
   * The exported `stats` is the report's whole object: every other key keeps its value, and each
   * count is a key exactly when the report has it, with its value.
   */
  lemma StatsPassedThrough(s: Stats)
    ensures StatsJson(s).JObj?
    ensures var f := StatsJson(s).fields;
      && (forall k :: k in s.others && k !in CountKeys ==> k in f && f[k] == s.others[k])
      && (forall k :: k in f ==> k in CountKeys || k in s.others)
      && ("failures" in f <==> s.failures.Some?) && (s.failures.Some? ==> f["failures"] == JNum(s.failures.value))
      && ("skipped" in f <==> s.skipped.Some?) && (s.skipped.Some? ==> f["skipped"] == JNum(s.skipped.value))
      && ("duration" in f <==> s.duration.Some?) && (s.duration.Some? ==> f["duration"] == JNum(s.duration.value))
  {
  }

  /** A reported result is exported as the report's whole `stats` object and the rendered duration. */
  lemma ReportedResultJson(t: TestResult)
    requires t.Reported?
    ensures ResultJson(t).JObj? && ResultJson(t).fields.Keys == {"stats", "duration"}
    ensures ResultJson(t).fields["stats"] == StatsJson(t.stats)
    ensures ResultJson(t).fields["duration"] == JStr(t.duration)
  {
  }

  /** The two reports `run` reads, each at its stage's output directory. */
  function Reports(map_: PluginMap, reportAt: string -> Option<Stats>): (TestResult, TestResult)
    requires map_.e2e.Some? && map_.unit.Some?
  {
    (GetTestReport(E2EName, map_.e2e.value.shouldRun, map_.e2e.value.outputPath + ReportFile, reportAt),
     GetTestReport(UnitName, map_.unit.value.shouldRun, map_.unit.value.outputPath + ReportFile, reportAt))
  }

  /** The record with both results and the union verdict exported. */
  function Exported(rec: Record, reports: (TestResult, TestResult)): Record {
    var union := UnionOf(reports.0, reports.1);
    AddTestCustomParams(rec, map[
      "e2eTest" := ResultJson(reports.0),
      "unitTest" := ResultJson(reports.1),
      "unionResult" := JObj(map["result" := JNum(union.result), "summary" := JStr(union.summary)])])
  }

  /** The saved copy of an xvfb instance: display, timeout, arguments, and the process's arguments and pid. */
  function TrimXvfb(x: Xvfb): (t: Xvfb)
    ensures t.display == x.display && t.timeout == x.timeout && t.args == x.args
    ensures t.internals == map[] && t.process.Some? && t.process.value.internals == map[]
    ensures x.process.Some? ==> t.process.value.spawnargs == x.process.value.spawnargs && t.process.value.pid == x.process.value.pid
    ensures x.process.None? ==> t.process.value.spawnargs == JUndefined && t.process.value.pid == JUndefined
  {
    Xvfb(x.display, x.timeout, x.args,
      Some(XvfbProcess(
        if x.process.Some? then x.process.value.spawnargs else JUndefined,
        if x.process.Some? then x.process.value.pid else JUndefined,
        map[])),
      map[])
  }

  /** `saveTestRecordContent`'s copy of the record: only the xvfb field is trimmed. */
  function SavedRecord(rec: Record): (r: Record)
    ensures r == rec.(xvfb := r.xvfb)
    ensures rec.xvfb.None? <==> r.xvfb.None?
  {
    if rec.xvfb.Some? then rec.(xvfb := Some(TrimXvfb(rec.xvfb.value))) else rec
  }

  /** Saving a saved record changes nothing more: the trimmed xvfb keeps exactly what trimming keeps. */
  lemma SavedRecordIdempotent(rec: Record)
    ensures SavedRecord(SavedRecord(rec)) == SavedRecord(rec)
  {
  }

  /** The files written before the zip: the entry page, its data, and the saved record. */
  function WriteSteps(a: Archive): seq<Step> {
    [Step(WriteFile(a.indexHtmlPath), false), Step(WriteFile(a.indexHtmlDataPath), false), Step(WriteFile(a.testRecordPath), false)]
  }

  /**
   * The body of `run` shared by the code as written and as intended: the reports, the exported
   * verdict, the entry page and the saved record. `Failure` is a rejection thrown before any
   * file is written, with the record as it stood then.
   */
  function Prepare(a: Archive, rec: Record, reportAt: string -> Option<Stats>): (r: Result<Record, (Thrown, Record)>)
    ensures var m := a.getPlugins(rec);
      && (r.Failure? <==> m.e2e.None? || m.unit.None? || (m.e2e.value.shouldRun && m.whistle.None?))
      && (r.Failure? && (m.e2e.None? || m.unit.None?) ==> r.error == (NullStage, rec))
      && (r.Success? ==> r.value == Exported(rec, Reports(m, reportAt)))
  {
    var m := a.getPlugins(rec);
    if m.e2e.None? || m.unit.None? then Failure((NullStage, rec))
    else
      var exported := Exported(rec, Reports(m, reportAt));
      if m.e2e.value.shouldRun && m.whistle.None? then Failure((NullWhistle, exported))
      else Success(exported)
  }

  /**
   * `compressDir` as written: the temporary zip goes into `testRecord.dwtPath`, given here as
   * `dwtPath`. The record has no such field, so `run` passes `None` and `path.join` throws before
   * anything is zipped.
   */
  function CompressAsWritten(a: Archive, dwtPath: Option<string>, ops: PathOps): (r: Result<seq<Step>, Thrown>)
    ensures r.Failure? <==> dwtPath.None?
    ensures r.Failure? ==> r.error == TypeError(UndefinedPathMessage)
    ensures r.Success? ==> r.value == [Step(Zip(a.rootPath, ops.join(dwtPath.value, ZipName)), false),
                                       Step(Move(ops.join(dwtPath.value, ZipName), a.outputZipPath), false)]
  {
    var tmp := JoinOrThrow(ops, dwtPath, ZipName);
    if tmp.Failure? then Failure(tmp.error)
    else Success([Step(Zip(a.rootPath, tmp.value), false), Step(Move(tmp.value, a.outputZipPath), false)])
  }

  /** `compressDir` as intended: zip the output directory into the DWT directory, then move the zip into place. */
  function Compress(a: Archive, rec: Record, ops: PathOps): (r: seq<Step>)
    ensures |r| == 2 && !r[0].swallowed && !r[1].swallowed
    ensures r[0].effect.Zip? && r[0].effect.source == a.rootPath
    ensures r[1].effect == Move(r[0].effect.dest, a.outputZipPath)
    ensures r[0].effect.dest == ops.join(rec.basePath, ZipName)
  {
    var tmp := ops.join(rec.basePath, ZipName);
    [Step(Zip(a.rootPath, tmp), false), Step(Move(tmp, a.outputZipPath), false)]
  }

  /**
   * The code of `run`, with the directory `compressDir` puts the temporary zip in given as
   * `tmpDir`: the reports and the verdict, the entry page and its data, the saved record, then the
   * zip and its move. Working out the temporary path has no effect, so it is done first here.
   */
  function RunWith(a: Archive, rec: Record, w: World, cache: Option<LeaseStore.Cache>, ops: PathOps,
                   reportAt: string -> Option<Stats>, tmpDir: Option<string>): (r: Act<Archive>)
    ensures r.state == a && r.cache == cache
  {
    var prepared := Prepare(a, rec, reportAt);
    if prepared.Failure? then Act([], a, prepared.error.1, cache, Rejected(prepared.error.0))
    else
      var compress := CompressAsWritten(a, tmpDir, ops);
      if compress.Failure? then
        var written := Chain(WriteSteps(a), w);
        Act(Effects(WriteSteps(a)[..written.0]), a, prepared.value, cache,
            if written.1.Rejected? then written.1 else Rejected(compress.error))
      else
        var steps := WriteSteps(a) + compress.value;
        var done := Chain(steps, w);
        Act(Effects(steps[..done.0]), a, prepared.value, cache, done.1)
  }

  /** `run` as written: `testRecord.dwtPath` is never set, so the temporary directory is `undefined`. */
  function RunAsWritten(a: Archive, rec: Record, w: World, cache: Option<LeaseStore.Cache>, ops: PathOps,
                        reportAt: string -> Option<Stats>): Act<Archive>
  {
    RunWith(a, rec, w, cache, ops, reportAt, None)
  }

  /** `run` as intended: the temporary zip goes into the DWT directory, the record's `basePath`. */
  function Run(a: Archive, rec: Record, w: World, cache: Option<LeaseStore.Cache>, ops: PathOps,
               reportAt: string -> Option<Stats>): Act<Archive>
  {
    RunWith(a, rec, w, cache, ops, reportAt, Some(rec.basePath))
  }

  /** As written, `run` never succeeds: whatever the stages, the reports and the file system, it rejects. */
  lemma RunAsWrittenNeverResolves(a: Archive, rec: Record, w: World, cache: Option<LeaseStore.Cache>, ops: PathOps,
                                  reportAt: string -> Option<Stats>)
    ensures RunAsWritten(a, rec, w, cache, ops, reportAt).outcome.Rejected?
    ensures var m := a.getPlugins(rec);
      (&& m.e2e.Some? && m.unit.Some? && (m.e2e.value.shouldRun ==> m.whistle.Some?)
       && (forall i :: 0 <= i < 3 ==> w.settle(Effects(WriteSteps(a))[i]).Resolved?)) ==>
        RunAsWritten(a, rec, w, cache, ops, reportAt).outcome == Rejected(TypeError(UndefinedPathMessage))
  {
    var steps := WriteSteps(a);
    ChainResolves(steps, w);
    if forall i :: 0 <= i < 3 ==> w.settle(Effects(steps)[i]).Resolved? {
      forall i | 0 <= i < |steps| ensures Passes(steps[i], w) {
        assert Effects(steps)[i] == steps[i].effect;
      }
    }
  }

  /** Everything `run` can be stopped by: a stage missing from the map, or a step that fails. */
  predicate RunCanFinish(a: Archive, rec: Record, w: World, ops: PathOps) {
    var m := a.getPlugins(rec);
    var steps := Effects(WriteSteps(a) + Compress(a, rec, ops));
    && m.e2e.Some? && m.unit.Some? && (m.e2e.value.shouldRun ==> m.whistle.Some?)
    && forall i :: 0 <= i < |steps| ==> w.settle(steps[i]).Resolved?
  }

  /**
   * The intended `run` succeeds exactly when both test stages are given (and the proxy whenever
   * end-to-end tests run) and every write, the zip and the move succeed.
   */
  lemma RunResolves(a: Archive, rec: Record, w: World, cache: Option<LeaseStore.Cache>, ops: PathOps,
                    reportAt: string -> Option<Stats>)
    ensures Run(a, rec, w, cache, ops, reportAt).outcome.Resolved? <==> RunCanFinish(a, rec, w, ops)
  {
    RunOutcome(a, rec, w, cache, ops, reportAt);
    ChainFinishes(a, rec, w, ops);
  }

  /** The writes, the zip and the move all go through exactly when each of their effects settles resolved. */
  lemma ChainFinishes(a: Archive, rec: Record, w: World, ops: PathOps)
    ensures var steps := WriteSteps(a) + Compress(a, rec, ops);
      Chain(steps, w).1.Resolved? <==> forall i :: 0 <= i < |Effects(steps)| ==> w.settle(Effects(steps)[i]).Resolved?
  {
    var steps := WriteSteps(a) + Compress(a, rec, ops);
    ChainResolves(steps, w);
    assert forall i :: 0 <= i < |steps| ==> !steps[i].swallowed;
    Stage.PassesWhenSettled(steps, w);
  }

  /** The intended `run` settles as its preparation, or else as its chain of writes, zip and move. */
  lemma RunOutcome(a: Archive, rec: Record, w: World, cache: Option<LeaseStore.Cache>, ops: PathOps,
                   reportAt: string -> Option<Stats>)
    ensures var prepared := Prepare(a, rec, reportAt);
      Run(a, rec, w, cache, ops, reportAt).outcome ==
        if prepared.Failure? then Rejected(prepared.error.0) else Chain(WriteSteps(a) + Compress(a, rec, ops), w).1
  {
    assert CompressAsWritten(a, Some(rec.basePath), ops) == Success(Compress(a, rec, ops));
  }

  /**
   * A successful `run` exports both results and the verdict, and its last two effects zip the
   * output directory in the DWT directory and move the zip to `output.zip` in the output directory.
   */
  lemma RunSpec(a: Archive, rec: Record, w: World, cache: Option<LeaseStore.Cache>, ops: PathOps,
                reportAt: string -> Option<Stats>)
    requires Run(a, rec, w, cache, ops, reportAt).outcome.Resolved?
    ensures var m := a.getPlugins(rec);
      var r := Run(a, rec, w, cache, ops, reportAt);
      && |r.effects| == 5
      && r.effects[..3] == [WriteFile(a.indexHtmlPath), WriteFile(a.indexHtmlDataPath), WriteFile(a.testRecordPath)]
      && r.effects[3] == Zip(a.rootPath, ops.join(rec.basePath, ZipName))
      && r.effects[4] == Move(ops.join(rec.basePath, ZipName), a.outputZipPath)
      && m.e2e.Some? && m.unit.Some?
      && r.record == Exported(rec, Reports(m, reportAt))
  {
    var steps := WriteSteps(a) + Compress(a, rec, ops);
    assert steps[..|steps|] == steps;
  }

  /**
   * The exported verdict is the union of the two reports, and both results sit beside it, when no
   * earlier stage exported values under those names.
   */
  lemma ExportedVerdict(rec: Record, reports: (TestResult, TestResult))
    requires "unionResult" !in rec.testCustomParams && "e2eTest" !in rec.testCustomParams && "unitTest" !in rec.testCustomParams
    ensures var u := UnionOf(reports.0, reports.1);
      var p := Exported(rec, reports).testCustomParams;
      && p["unionResult"] == JObj(map["result" := JNum(u.result), "summary" := JStr(u.summary)])
      && p["e2eTest"] == ResultJson(reports.0)
      && p["unitTest"] == ResultJson(reports.1)
  {
  }

  /** With the default `getPlugins` the run rejects at once: no effects, the record untouched. */
  lemma DefaultPluginsReject(name: string, shouldSkip: BasePlugin.SkipOption, rec: Record, w: World,
                             cache: Option<LeaseStore.Cache>, ops: PathOps, reportAt: string -> Option<Stats>)
    ensures var r := Run(Create(name, shouldSkip, None), rec, w, cache, ops, reportAt);
      r.outcome == Rejected(NullStage) && r.effects == [] && r.record == rec
  {
  }
}
