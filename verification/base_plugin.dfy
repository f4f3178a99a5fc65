/** The stage contract of BasePlugin.js: a name, the `isInited` flag and the `shouldSkip` option. */
module BasePlugin {
  import opened Js
  import opened TestRecord

  /** `opts.shouldSkip`: a function of the record, or any other value. */
  datatype SkipOption = SkipFn(f: Record -> Value) | SkipValue(v: Value)

  /** The option as stored: the given `shouldSkip` when truthy, otherwise a function that never skips. */
  function EffectiveSkip(o: SkipOption): (r: SkipOption)
    ensures o.SkipFn? || Truthy(o.v) ==> r == o
    ensures o.SkipValue? && !Truthy(o.v) ==> r.SkipFn? && forall rec :: r.f(rec) == Bool(false)
  {
    if o.SkipValue? && !Truthy(o.v) then SkipFn(_ => Bool(false)) else o
  }

  datatype Plugin = Plugin(name: string, isInited: bool, shouldSkip: SkipOption)

  /** `new BasePlugin(name, opts)` */
  function Create(name: string, shouldSkip: SkipOption): (p: Plugin)
    ensures p.name == name && !p.isInited
  {
    Plugin(name, false, EffectiveSkip(shouldSkip))
  }

  /** The base `init`: marks the stage initialised and changes nothing else. */
  function Init(p: Plugin): (p': Plugin)
    ensures p'.isInited && p'.name == p.name && p'.shouldSkip == p.shouldSkip
  {
    p.(isInited := true)
  }

  /**
   * `shouldRun(testRecord)`: the negation of `shouldSkip(testRecord)` when it is a function,
   * otherwise of `!!shouldSkip`.
   */
  function ShouldRun(p: Plugin, rec: Record): bool {
    match p.shouldSkip
    case SkipFn(f) => !Truthy(f(rec))
    case SkipValue(v) => !Truthy(v)
  }

  /** How the `shouldSkip` option given at construction decides `shouldRun`. */
  lemma ShouldRunFromOption(name: string, o: SkipOption, rec: Record)
    ensures o.SkipFn? ==> ShouldRun(Create(name, o), rec) == !Truthy(o.f(rec))
    ensures o.SkipValue? ==> ShouldRun(Create(name, o), rec) == !Truthy(o.v)
    ensures ShouldRun(Init(Create(name, o)), rec) == ShouldRun(Create(name, o), rec)
  {
  }

  /** Without a `shouldSkip` option a stage always runs. */
  lemma ShouldRunByDefault(name: string, rec: Record)
    ensures ShouldRun(Create(name, SkipValue(Undefined)), rec)
  {
  }
}
