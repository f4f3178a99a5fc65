/**
 * What the concrete stages (the plugins under plugins/) share: the effects they ask of the
 * outside world, the world that answers them, and the shape of one hook's result.
 */
module Stage {
  import opened Wrappers
  import opened Js
  import opened Util
  import opened TestRecord
  import LeaseStore
  import Text

  /** An effect a stage hook asks for. */
  datatype Effect =
    | Exec(command: string, cwd: Option<string>)                  // runCmd.runByExec
    | Spawn(program: string, args: seq<string>, cwd: Option<string>) // runBySpawn
    | KillBySearch(search: string)                                // businessProcessHandler.kill
    | KillPort(port: int)                                         // util.killPort
    | KillPids(pids: seq<int>)                                    // businessProcessHandler.killPids
    | Hook(name: string)                                          // a user callback such as `onBeforeTest`
    | WriteFile(path: string)                                     // a synchronous file or JSON write
    | RemovePath(path: string)                                    // fse.removeSync
    | Zip(source: string, dest: string)                           // compressing.zip.compressDir
    | Move(source: string, dest: string)                          // fse.moveSync with overwrite
    | Task(name: string)                                          // an opaque library call (xvfb, coverage, copy)

  /**
   * How the outside world answers: how each effect settles, the pid a spawn reports, which ports
   * can be bound, whether the k-th GET of a URL succeeds, the clock, and `process.env.USE_XVFB`.
   */
  datatype World = World(
    settle: Effect -> Outcome,
    pidOf: Effect -> Option<int>,
    probe: int -> bool,
    up: string -> nat -> bool,
    now: int,
    useXvfb: bool)

  /** A lease cache the store's functions accept: unreadable (`None`) or well formed. */
  predicate Sound(cache: Option<LeaseStore.Cache>) {
    cache.Some? ==> LeaseStore.Valid(cache.value)
  }

  /** One hook call: the effects in order, the stage and record after it, the lease cache after it, and how it settled. */
  datatype Act<S> = Act(effects: seq<Effect>, state: S, record: Record, cache: Option<LeaseStore.Cache>, outcome: Outcome)

  /** A step that rejected: its error and the stage's fields as the step left them. */
  datatype Halt<S> = Halt(error: Thrown, state: S)

  /**
   * `opts.x || dflt` for a string-or-function option: a missing option or an empty string gives
   * the default, anything else is kept.
   */
  /** A command option that is set and truthy: a function, or a non-empty string. */
  predicate CmdGiven<A>(o: Option<StrOrFunc<A>>) {
    o.Some? && (o.value.Computed? || o.value.s != "")
  }

  function CmdOr<A>(o: Option<StrOrFunc<A>>, dflt: StrOrFunc<A>): (r: StrOrFunc<A>)
    ensures o.None? || (o.value.Literal? && o.value.s == "") ==> r == dflt
    ensures o.Some? && o.value.Computed? ==> r == o.value
    ensures o.Some? && o.value.Literal? && o.value.s != "" ==> r == o.value
  {
    if o.None? || (o.value.Literal? && o.value.s == "") then dflt else o.value
  }

  /** A process key interpolated into a command; before `init` sets it, it reads "undefined". */
  function KeyText(key: Option<string>): (r: string)
    ensures key.Some? ==> r == key.value
    ensures key.None? ==> r == "undefined"
  {
    if key.Some? then key.value else "undefined"
  }

  /** A command followed by a space, two dashes and the process key, so a search for the key finds it. */
  function Tagged(cmd: string, key: Option<string>): (r: string)
    ensures Text.OccursAt(r, KeyText(key), |r| - |KeyText(key)|)
  {
    var r := cmd + " --" + KeyText(key);
    assert r[|r| - |KeyText(key)|..] == KeyText(key);
    r
  }

  /**
   * The cache after a `saveUsedPid` call that did not throw: the rewritten cache, or the old one
   * when nothing was written.
   */
  function AfterPid(cache: Option<LeaseStore.Cache>, saved: Option<LeaseStore.Cache>): (r: Option<LeaseStore.Cache>)
    ensures saved.None? ==> r == cache
    ensures saved.Some? ==> r == saved
  {
    if saved.Some? then saved else cache
  }

  /** One awaited step of a hook; a swallowed step's failure is caught and only logged. */
  datatype Step = Step(effect: Effect, swallowed: bool)

  /** The step lets the hook go on: its failure is swallowed, or it does not fail. */
  predicate Passes(s: Step, w: World) {
    s.swallowed || w.settle(s.effect).Resolved?
  }

  /** The effects of a run of steps, in order. */
  function Effects(steps: seq<Step>): (r: seq<Effect>)
    ensures |r| == |steps| && forall i :: 0 <= i < |steps| ==> r[i] == steps[i].effect
  {
    seq(|steps|, i requires 0 <= i < |steps| => steps[i].effect)
  }

  /**
   * Awaiting `steps` one after the other: how many were carried out and how the sequence settled.
   * It stops at the first step that fails without being swallowed, with that step's error.
   */
  function Chain(steps: seq<Step>, w: World): (r: (nat, Outcome))
    ensures r.0 <= |steps|
    ensures forall i :: 0 <= i < r.0 - 1 ==> Passes(steps[i], w)
    ensures r.1.Resolved? <==> r.0 == |steps| && (r.0 == 0 || Passes(steps[r.0 - 1], w))
    ensures r.1.Rejected? ==> r.0 > 0 && !Passes(steps[r.0 - 1], w) && r.1 == w.settle(steps[r.0 - 1].effect)
    decreases |steps|
  {
    if |steps| == 0 then (0, Resolved)
    else if !Passes(steps[0], w) then (1, w.settle(steps[0].effect))
    else
      var rest := Chain(steps[1..], w);
      (rest.0 + 1, rest.1)
  }

  /** One step written before a single-effect step and one after give three effects in that order. */
  lemma Bracketed(before: Effect, mid: seq<Effect>, after: Effect, only: Effect)
    requires mid == [only]
    ensures [before] + mid + [after] == [before, only, after]
  {
  }

  /**
   * A chain whose last `k` steps, and only those, are swallowed: it succeeds exactly when every
   * earlier effect settles resolved, and otherwise stops inside the earlier steps with the
   * rejection of the last effect it carried out.
   */
  lemma ChainSwallowedTail(steps: seq<Step>, w: World, k: nat)
    requires k <= |steps|
    requires forall i :: 0 <= i < |steps| ==> (steps[i].swallowed <==> i >= |steps| - k)
    ensures var done, s := Chain(steps, w), Effects(steps);
      && (done.1.Resolved? <==> forall i :: 0 <= i < |steps| - k ==> w.settle(s[i]).Resolved?)
      && (done.1.Rejected? ==>
            && 0 < done.0 <= |steps| - k
            && Effects(steps[..done.0]) == s[..done.0]
            && done.1 == w.settle(s[done.0 - 1]))
  {
    var done, s := Chain(steps, w), Effects(steps);
    ChainResolves(steps, w);
    forall i | 0 <= i < |steps| ensures Passes(steps[i], w) <==> (i >= |steps| - k || w.settle(s[i]).Resolved?) {
      assert s[i] == steps[i].effect;
    }
    if done.1.Rejected? {
      var n := done.0;
      assert !steps[n - 1].swallowed;
      assert s[n - 1] == steps[n - 1].effect;
      var e := Effects(steps[..n]);
      forall i | 0 <= i < n ensures e[i] == s[..n][i] {
        assert e[i] == steps[..n][i].effect == steps[i].effect;
      }
    }
  }

  /** Steps none of which is swallowed pass exactly when their effects all settle resolved. */
  lemma PassesWhenSettled(steps: seq<Step>, w: World)
    requires forall i :: 0 <= i < |steps| ==> !steps[i].swallowed
    ensures (forall i :: 0 <= i < |steps| ==> Passes(steps[i], w))
      <==> (forall i :: 0 <= i < |Effects(steps)| ==> w.settle(Effects(steps)[i]).Resolved?)
  {
    var e := Effects(steps);
    forall i | 0 <= i < |steps| ensures Passes(steps[i], w) <==> w.settle(e[i]).Resolved? {
      assert e[i] == steps[i].effect;
    }
  }

  /** A sequence of steps succeeds exactly when every step passes. */
  lemma ChainResolves(steps: seq<Step>, w: World)
    ensures Chain(steps, w).1.Resolved? <==> forall i :: 0 <= i < |steps| ==> Passes(steps[i], w)
  {
  }

  /** A chain whose first `k` steps pass stops at step `k` when that one fails, with its rejection. */
  lemma {:induction false} ChainPrefixStops(steps: seq<Step>, w: World, k: nat)
    requires k < |steps|
    requires forall i :: 0 <= i < k ==> Passes(steps[i], w)
    requires !Passes(steps[k], w)
    ensures Chain(steps, w) == (k + 1, w.settle(steps[k].effect))
    decreases k
  {
    if k > 0 {
      assert Passes(steps[0], w);
      ChainPrefixStops(steps[1..], w, k - 1);
    }
  }

  /** Steps appended after a sequence run only once it succeeds; otherwise it fails the same way. */
  lemma {:induction false} ChainAppend(a: seq<Step>, b: seq<Step>, w: World)
    ensures Chain(a, w).1.Rejected? ==> Chain(a + b, w) == Chain(a, w)
    ensures Chain(a, w).1.Resolved? ==> Chain(a + b, w) == (|a| + Chain(b, w).0, Chain(b, w).1)
    decreases |a|
  {
    if |a| > 0 {
      assert (a + b)[1..] == a[1..] + b;
      ChainAppend(a[1..], b, w);
    } else {
      assert a + b == b;
    }
  }

  /** `String(port)` as a spawn argument or inside a URL. */
  function PortText(port: int): string {
    Text.IntText(port)
  }
}
