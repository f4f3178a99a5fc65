/**
 * The run record of TestRecord.js: the resolved paths, the mode flags, the run id `seqId`,
 * the registry of initialised stages and the custom parameters exported to the pipeline.
 */
module TestRecord {
  import opened Wrappers
  import opened Js
  import opened Util
  import opened Lodash
  import Text

  /** The options a run is started with; a missing field is `None` or `Undefined`. */
  datatype Config = Config(
    outputPath: Option<string>,
    workspacePath: Option<string>,
    isDev: Value,
    shouldRunE2ETest: Value,
    shouldRunUnitTest: Value,
    isRunInDevopsApp: Value)

  datatype PackageInfo = PackageInfo(name: string, version: string)

  /** The child process an xvfb instance holds. */
  datatype XvfbProcess = XvfbProcess(spawnargs: Json, pid: Json, internals: map<string, Json>)

  /** The xvfb instance the end-to-end stage attaches to the record. */
  datatype Xvfb = Xvfb(display: Json, timeout: Json, args: Json, process: Option<XvfbProcess>, internals: map<string, Json>)

  datatype Record = Record(
    basePath: string,
    outputPath: string,
    workspacePath: string,
    isDev: bool,
    shouldRunE2ETest: bool,
    shouldRunUnitTest: bool,
    isRunInDevopsApp: bool,
    inputParams: map<string, string>,
    devopsAppPipelineHomeUrl: string,
    dwtCustomPackageInfo: PackageInfo,
    seqId: string,
    plugin: map<string, nat>,
    testCustomParams: map<string, Json>,
    xvfb: Option<Xvfb>)

  /** `v || dflt` on a string option. */
  function TextOr(v: Option<string>, dflt: string): (r: string)
    ensures Given(v) ==> r == v.value
    ensures !Given(v) ==> r == dflt
  {
    if Given(v) then v.value else dflt
  }

  /** An SDK parameter, or the empty string when it is missing or empty. */
  function Param(params: map<string, string>, key: string): (r: string)
    ensures key in params ==> r == params[key]
    ensures key !in params ==> r == ""
  {
    if key in params then params[key] else ""
  }

  /**
   * The run id: `"dev"` in dev mode, otherwise the last six Base64 characters of the base
   * path with each `=` turned into `d`, followed by the start time in milliseconds.
   */
  function SeqId(isDev: bool, basePath: string, now: nat): (r: string)
    ensures isDev ==> r == "dev"
  {
    if isDev then "dev" else Text.ReplaceChar(GetBase64(basePath, Some(6)), '=', 'd') + Text.NatText(now)
  }

  /** Outside dev mode the run id is a tag of at most six Base64 characters and the start time. */
  lemma SeqIdShape(basePath: string, now: nat)
    ensures var tag := Text.ReplaceChar(GetBase64(basePath, Some(6)), '=', 'd');
      && |tag| <= 6
      && (forall i :: 0 <= i < |tag| ==> Base64.IsAlphabet(tag[i]))
      && SeqId(false, basePath, now) == tag + Text.NatText(now)
  {
    GetBase64Shape(basePath, Some(6));
  }

  /** No run id contains `=`. */
  lemma SeqIdHasNoEquals(isDev: bool, basePath: string, now: nat)
    ensures forall i :: 0 <= i < |SeqId(isDev, basePath, now)| ==> SeqId(isDev, basePath, now)[i] != '='
  {
    if !isDev {
      var tag := Text.ReplaceChar(GetBase64(basePath, Some(6)), '=', 'd');
      var digits := Text.NatText(now);
      var s := SeqId(isDev, basePath, now);
      forall i | 0 <= i < |s| ensures s[i] != '=' {
        if i >= |tag| {
          assert s[i] == digits[i - |tag|];
        }
      }
    }
  }

  /** Two runs from the same base path started at different times get different run ids. */
  lemma SeqIdSeparatesRuns(basePath: string, now1: nat, now2: nat)
    requires now1 != now2
    ensures SeqId(false, basePath, now1) != SeqId(false, basePath, now2)
  {
    var tag := Text.ReplaceChar(GetBase64(basePath, Some(6)), '=', 'd');
    if SeqId(false, basePath, now1) == SeqId(false, basePath, now2) {
      assert Text.NatText(now1) == SeqId(false, basePath, now1)[|tag|..];
      assert Text.NatText(now2) == SeqId(false, basePath, now2)[|tag|..];
      Text.ParseNatText(now1);
      Text.ParseNatText(now2);
    }
  }

  /**
   * `new TestRecord(basePath, config, nodejsAtomSdk)` started at `now`. `sdkParams` is what the
   * SDK's `getInputParams()` returns, `None` without an SDK. A missing base path makes the first
   * path resolution throw.
   */
  function New(ops: PathOps, basePath: Option<string>, config: Config, sdkParams: Option<map<string, string>>, now: nat)
    : (r: Result<Record, Thrown>)
    ensures r.Failure? <==> basePath.None?
    ensures r.Success? ==>
      var rec := r.value;
      && Success(rec.basePath) == GetAbsolutePath(ops, basePath, None)
      && Success(rec.outputPath) == GetAbsolutePath(ops, Some(rec.basePath), Some(TextOr(config.outputPath, "output")))
      && Success(rec.workspacePath) == GetAbsolutePath(ops, Some(rec.basePath), Some(TextOr(config.workspacePath, "../../")))
      && rec.isDev == Truthy(config.isDev)
      && rec.shouldRunE2ETest == BoolOr(config.shouldRunE2ETest, true)
      && rec.shouldRunUnitTest == BoolOr(config.shouldRunUnitTest, true)
      && rec.isRunInDevopsApp == Truthy(config.isRunInDevopsApp)
      && rec.inputParams == sdkParams.GetOr(map[])
      && rec.devopsAppPipelineHomeUrl == Param(rec.inputParams, "devops_app_pipeline_home_url")
      && rec.dwtCustomPackageInfo == PackageInfo(Param(rec.inputParams, "dwt_custom_package_info.name"),
                                                Param(rec.inputParams, "dwt_custom_package_info.version"))
      && rec.seqId == SeqId(rec.isDev, rec.basePath, now)
      && rec.plugin == map[]
      && rec.testCustomParams.Keys == {"outputPath", "outputRelativePath", "devopsAppRelativePath"}
      && rec.testCustomParams["outputPath"] == JStr(rec.outputPath)
      && rec.testCustomParams["outputRelativePath"] == JStr(ops.relative(rec.workspacePath, rec.outputPath))
      && rec.testCustomParams["devopsAppRelativePath"] == JStr(ops.relative(rec.workspacePath, rec.basePath))
      && rec.xvfb.None?
  {
    var base :- GetAbsolutePath(ops, basePath, None);
    var output := GetAbsolutePath(ops, Some(base), Some(TextOr(config.outputPath, "output"))).value;
    var workspace := GetAbsolutePath(ops, Some(base), Some(TextOr(config.workspacePath, "../../"))).value;
    var isDev := Truthy(config.isDev);
    var params := sdkParams.GetOr(map[]);
    Success(Record(
      base, output, workspace, isDev,
      BoolOr(config.shouldRunE2ETest, true),
      BoolOr(config.shouldRunUnitTest, true),
      Truthy(config.isRunInDevopsApp),
      params,
      Param(params, "devops_app_pipeline_home_url"),
      PackageInfo(Param(params, "dwt_custom_package_info.name"), Param(params, "dwt_custom_package_info.version")),
      SeqId(isDev, base, now),
      map[],
      map["outputPath" := JStr(output),
          "outputRelativePath" := JStr(ops.relative(workspace, output)),
          "devopsAppRelativePath" := JStr(ops.relative(workspace, base))],
      None))
  }

  /** `getPlugin(name)`: the index of the stage registered under `name`, if any. */
  function GetPlugin(r: Record, name: string): (p: Option<nat>)
    ensures p.Some? <==> name in r.plugin
    ensures p.Some? ==> p.value == r.plugin[name]
  {
    if name in r.plugin then Some(r.plugin[name]) else None
  }

  /**
   * `addTestCustomParams(obj)`: `_.merge({}, testCustomParams, obj)`. Every earlier key stays,
   * every key of `obj` is added, a key `obj` lacks keeps its value, and nothing else in the
   * record changes.
   */
  function AddTestCustomParams(r: Record, obj: map<string, Json>): (r': Record)
    ensures r' == r.(testCustomParams := r'.testCustomParams)
    ensures r'.testCustomParams.Keys == r.testCustomParams.Keys + obj.Keys
    ensures forall k :: k in r.testCustomParams && k !in obj ==> r'.testCustomParams[k] == r.testCustomParams[k]
    ensures forall k :: k in obj && !obj[k].JUndefined? && !obj[k].JObj? ==> r'.testCustomParams[k] == obj[k]
    ensures forall k :: k in obj && k !in r.testCustomParams ==> r'.testCustomParams[k] == obj[k]
  {
    MergeOntoEmpty(r.testCustomParams);
    r.(testCustomParams := MergeFields(MergeFields(map[], r.testCustomParams), obj))
  }

  /** Exporting the same parameters twice leaves the record as exporting them once does. */
  lemma AddTestCustomParamsIdempotent(r: Record, obj: map<string, Json>)
    ensures AddTestCustomParams(AddTestCustomParams(r, obj), obj) == AddTestCustomParams(r, obj)
  {
    var once := AddTestCustomParams(r, obj);
    MergeOntoEmpty(r.testCustomParams);
    MergeOntoEmpty(once.testCustomParams);
    MergeIdempotent(JObj(r.testCustomParams), JObj(obj));
    assert Merge(JObj(r.testCustomParams), JObj(obj)) == JObj(once.testCustomParams);
  }
}
