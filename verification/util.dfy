/** The helpers of util/index.js: path resolution, `getBase64`, string-or-function options, readiness retries. */
module Util {
  import opened Wrappers
  import opened Js
  import Base64

  /** Node's `path` functions, left uninterpreted. */
  datatype PathOps = PathOps(
    isAbsolute: string -> bool,
    resolve: string -> string,
    join: (string, string) -> string,
    relative: (string, string) -> string)

  /** A string option, truthy when present and non-empty. */
  predicate Given(p: Option<string>) {
    p.Some? && p.value != ""
  }

  /** What `path.join` and `path.resolve` throw when handed `undefined`. */
  const UndefinedPathMessage: string := "The \"path\" argument must be of type string. Received undefined"

  /** `path.join(dir, name)` where `dir` may be `undefined`, which makes it throw. */
  function JoinOrThrow(ops: PathOps, dir: Option<string>, name: string): (r: Result<string, Thrown>)
    ensures r.Failure? <==> dir.None?
    ensures r.Failure? ==> r.error == TypeError(UndefinedPathMessage)
    ensures r.Success? ==> r.value == ops.join(dir.value, name)
  {
    if dir.None? then Failure(TypeError(UndefinedPathMessage)) else Success(ops.join(dir.value, name))
  }

  /**
   * `getAbsolutePath(basePath, curPath)`. An absolute `curPath` is returned as it is; a relative one is
   * joined to `basePath` and resolved; with no `curPath` the base itself is returned, resolved if relative.
   * Node's `path` functions throw a TypeError when `basePath` is `undefined` and has to be used.
   */
  function GetAbsolutePath(ops: PathOps, basePath: Option<string>, curPath: Option<string>): (r: Result<string, Thrown>)
    ensures Given(curPath) && ops.isAbsolute(curPath.value) ==> r == Success(curPath.value)
    ensures Given(curPath) && !ops.isAbsolute(curPath.value) && basePath.Some? ==>
      r == Success(ops.resolve(ops.join(basePath.value, curPath.value)))
    ensures !Given(curPath) && basePath.Some? ==>
      r == Success(if ops.isAbsolute(basePath.value) then basePath.value else ops.resolve(basePath.value))
    ensures r.Failure? <==> basePath.None? && !(Given(curPath) && ops.isAbsolute(curPath.value))
  {
    if Given(curPath) then
      if ops.isAbsolute(curPath.value) then Success(curPath.value)
      else if basePath.None? then Failure(TypeError(UndefinedPathMessage))
      else Success(ops.resolve(ops.join(basePath.value, curPath.value)))
    else
      if basePath.None? then Failure(TypeError(UndefinedPathMessage))
      else if ops.isAbsolute(basePath.value) then Success(basePath.value)
      else Success(ops.resolve(basePath.value))
  }

  /** When `path.resolve` always yields an absolute path, so does every successful `getAbsolutePath`. */
  lemma AbsolutePathIsAbsolute(ops: PathOps, basePath: Option<string>, curPath: Option<string>)
    requires forall s :: ops.isAbsolute(ops.resolve(s))
    ensures var r := GetAbsolutePath(ops, basePath, curPath);
      r.Success? ==> ops.isAbsolute(r.value)
  {
  }

  /** Resolving an already absolute result again returns it unchanged. */
  lemma AbsolutePathIdempotent(ops: PathOps, basePath: Option<string>, curPath: Option<string>, other: Option<string>)
    requires forall s :: ops.isAbsolute(ops.resolve(s))
    requires GetAbsolutePath(ops, basePath, curPath).Success?
    requires GetAbsolutePath(ops, basePath, curPath).value != ""
    ensures var p := GetAbsolutePath(ops, basePath, curPath).value;
      GetAbsolutePath(ops, other, Some(p)) == Success(p)
  {
  }

  /**
   * `getBase64(data, length)`: the Base64 text of the UTF-8 bytes of `data`. A positive length keeps
   * the last `length` characters (all of them when the text is shorter); an absent or zero length keeps
   * the whole text; a negative one, through `slice(-length)`, drops the first `-length` characters.
   */
  function GetBase64(data: string, length: Option<int>): (r: string)
    ensures var e := Base64.Encode(Base64.Utf8(data));
      && (length.None? || length.value == 0 ==> r == e)
      && (length.Some? && length.value > 0 ==>
            |r| == (if length.value < |e| then length.value else |e|) && r == e[|e| - |r|..])
      && (length.Some? && length.value < 0 ==>
            r == e[(if -length.value < |e| then -length.value else |e|)..])
  {
    var e := Base64.Encode(Base64.Utf8(data));
    if length.None? || length.value == 0 then e
    else if length.value > 0 then
      (if length.value < |e| then e[|e| - length.value..] else e)
    else
      (if -length.value < |e| then e[-length.value..] else [])
  }

  /** No character of a Base64 text suffix is outside the alphabet and '='. */
  lemma GetBase64Shape(data: string, length: Option<int>)
    ensures var r := GetBase64(data, length);
      forall i :: 0 <= i < |r| ==> Base64.IsAlphabet(r[i]) || r[i] == '='
  {
    var e := Base64.Encode(Base64.Utf8(data));
    Base64.EncodeShape(Base64.Utf8(data));
    var r := GetBase64(data, length);
    var j := if length.None? || length.value == 0 then 0
      else if length.value > 0 then (if length.value < |e| then |e| - length.value else 0)
      else (if -length.value < |e| then -length.value else |e|);
    assert r == e[j..];
    SuffixKeepsAlphabet(e, j);
  }

  /** A suffix of a text of alphabet characters and '=' has only those too. */
  lemma SuffixKeepsAlphabet(e: string, j: nat)
    requires j <= |e|
    requires forall i :: 0 <= i < |e| ==> Base64.IsAlphabet(e[i]) || e[i] == '='
    ensures forall i :: 0 <= i < |e[j..]| ==> Base64.IsAlphabet(e[j..][i]) || e[j..][i] == '='
  {
    forall i | 0 <= i < |e[j..]| ensures Base64.IsAlphabet(e[j..][i]) || e[j..][i] == '=' {
      assert e[j..][i] == e[j + i];
    }
  }

  /** An option that is a literal string or a function computing one from its arguments. */
  datatype StrOrFunc<!A> = Literal(s: string) | Computed(f: A -> string)

  /** `getFromStrOrFunc(target, ...args)` */
  function FromStrOrFunc<A>(target: StrOrFunc<A>, args: A): (r: string)
    ensures target.Literal? ==> r == target.s
    ensures target.Computed? ==> r == target.f(args)
  {
    match target
    case Literal(s) => s
    case Computed(f) => f(args)
  }

  /** The options of `checkAndWaitURLAvailable`. */
  datatype CheckOptions = CheckOptions(retryLimit: Option<int>, count: Option<int>, timeout: Option<int>)

  /** `v || dflt` on a numeric option: absent and 0 both give the default. */
  function OrDefault(v: Option<int>, dflt: int): (r: int)
    ensures v.Some? && v.value != 0 ==> r == v.value
    ensures v.None? || v.value == 0 ==> r == dflt
  {
    if v.Some? && v.value != 0 then v.value else dflt
  }

  const DefaultRetryLimit: int := 10
  const DefaultRetryDelay: int := 1000

  /** The effective retry limit and delay between attempts. */
  function RetryLimit(opts: CheckOptions): (r: int)
    ensures opts.retryLimit.None? || opts.retryLimit.value == 0 ==> r == 10
  {
    OrDefault(opts.retryLimit, DefaultRetryLimit)
  }

  function RetryDelay(opts: CheckOptions): (r: int)
    ensures opts.timeout.None? || opts.timeout.value == 0 ==> r == 1000
  {
    OrDefault(opts.timeout, DefaultRetryDelay)
  }

  /** How a readiness check ends, with the number of GET attempts made. */
  datatype Readiness = Available(attempts: nat) | RetryMax(attempts: nat)

  /** The retries still allowed with `count` retries made out of `limit`. */
  function Budget(count: int, limit: int): nat {
    if limit - count > 0 then limit - count else 0
  }

  /**
   * The attempt loop: attempt number `made` (0-based) succeeds when `up(made)`; on a failure with
   * `count >= limit` the check rejects, otherwise `count` grows by one and the next attempt follows.
   */
  function Attempts(up: nat -> bool, count: int, limit: int, made: nat): (r: Readiness)
    ensures r.Available? ==>
      made < r.attempts <= made + Budget(count, limit) + 1 && up(r.attempts - 1)
      && forall k :: made <= k < r.attempts - 1 ==> !up(k)
    ensures r.RetryMax? ==>
      r.attempts == made + Budget(count, limit) + 1 && forall k :: made <= k < r.attempts ==> !up(k)
    decreases Budget(count, limit)
  {
    if up(made) then Available(made + 1)
    else if count >= limit then RetryMax(made + 1)
    else Attempts(up, count + 1, limit, made + 1)
  }

  /**
   * `checkAndWaitURLAvailable(url, opts)` with `up(k)` the success of its k-th GET of `url`:
   * it resolves true on the first successful attempt, and rejects with 'retry max' once
   * `retryLimit - count + 1` attempts have failed.
   */
  function CheckAndWaitURLAvailable(up: nat -> bool, opts: CheckOptions): (r: Readiness)
    ensures up(0) ==> r == Available(1)
    ensures r.RetryMax? ==> forall k :: 0 <= k < r.attempts ==> !up(k)
    ensures r.Available? ==> r.attempts >= 1 && up(r.attempts - 1) && forall k :: 0 <= k < r.attempts - 1 ==> !up(k)
  {
    Attempts(up, OrDefault(opts.count, 0), RetryLimit(opts), 0)
  }

  /** With every attempt failing and no count given, exactly `retryLimit + 1` attempts are made. */
  lemma AllFailingMakesLimitPlusOneAttempts(up: nat -> bool, opts: CheckOptions)
    requires forall k: nat :: !up(k)
    requires opts.count.None? && RetryLimit(opts) >= 0
    ensures CheckAndWaitURLAvailable(up, opts) == RetryMax(RetryLimit(opts) + 1)
  {
  }

  /** The settled promise of a readiness check. */
  function Settle(r: Readiness): (o: Outcome)
    ensures o.Resolved? <==> r.Available?
    ensures o.Rejected? ==> o.error == Error("retry max")
  {
    if r.Available? then Resolved else Rejected(Error("retry max"))
  }
}
