/**
 * The pipeline of test-controller.js `start`: the lease-cache stage is put in front of the
 * configured stages, then every stage is initialised, prepared, run (when its `shouldRun`
 * says so) and cleaned up, one phase after the other. How each hook call settles is an
 * input; the result is the trace of hook calls, what each `init` saw of the stage registry,
 * and how the returned promise settles.
 */
module Engine {
  import opened Wrappers
  import opened Js

  datatype Phase = Init | BeforeRun | Run | AfterRun

  /** The order of the phases. */
  function Rank(p: Phase): nat {
    match p
    case Init => 0
    case BeforeRun => 1
    case Run => 2
    case AfterRun => 3
  }

  /**
   * A stage's turn: stage `stage` of the list, in phase `phase`. A turn is a hook call, except that
   * a `run` turn whose `shouldRun` throws ends with that error before `run` is called.
   */
  datatype Event = Event(stage: nat, phase: Phase)

  /** What `shouldRun(testRecord)` does when the `run` loop asks: answer true, answer false, or throw. */
  datatype Answer = Runs | Skips | Throws(error: Thrown)

  /** A listed stage as the engine sees it: its name and what its `shouldRun` does. */
  datatype StageSpec = StageSpec(name: string, shouldRun: Answer)

  /** `new PluginLocalCache('PluginLocalCache')`, which has no `shouldSkip` option. */
  const Head: StageSpec := StageSpec("PluginLocalCache", Runs)

  /** How a hook call settles, by stage index, phase, and whether it is part of the failure cleanup. */
  type Hooks = (nat, Phase, bool) -> Outcome

  const FailurePrefix: string := "自动化测试主流程出现了异常，未能正常执行完成，原因为："

  /** The error `start` rethrows: the fixed prefix followed by the cause's description (`Js.Describe`). */
  function Wrap(e: Thrown): (r: Thrown)
    ensures r.ErrorObj? && r.kind == "Error"
    ensures |r.message| >= |FailurePrefix| && r.message[..|FailurePrefix|] == FailurePrefix
    ensures r.message[|FailurePrefix|..] == Describe(e)
  {
    Error(FailurePrefix + Describe(e))
  }

  // ---------------------------------------------------------------------------------------------
  // The registry `testRecord.plugin`

  /** `testRecord.plugin` after stages `s` registered in order: a later stage overwrites an earlier one of the same name. */
  function Registry(s: seq<StageSpec>): map<string, nat>
    decreases |s|
  {
    if |s| == 0 then map[] else Registry(s[..|s| - 1])[s[|s| - 1].name := |s| - 1]
  }

  /** A name is registered exactly when some stage has it, and then to the last stage that has it. */
  lemma {:induction false} RegistryLast(s: seq<StageSpec>, name: string)
    ensures name in Registry(s) <==> exists k :: 0 <= k < |s| && s[k].name == name
    ensures name in Registry(s) ==>
      Registry(s)[name] < |s| && s[Registry(s)[name]].name == name
      && forall k :: Registry(s)[name] < k < |s| ==> s[k].name != name
    decreases |s|
  {
    if |s| > 0 {
      var t := s[..|s| - 1];
      RegistryLast(t, name);
      assert forall k :: 0 <= k < |t| ==> t[k] == s[k];
    }
  }

  // ---------------------------------------------------------------------------------------------
  // The reference plan

  /** Whether a phase gives the stage a turn: only `run` asks `shouldRun`, and only an answer of false skips it. */
  predicate Gate(s: StageSpec, p: Phase) {
    p != Run || !s.shouldRun.Skips?
  }

  /** The hook calls of phase `p` over stages `i..`, in list order. */
  function Gated(stages: seq<StageSpec>, p: Phase, i: nat): (r: seq<Event>)
    ensures p != Run && i <= |stages| ==> |r| == |stages| - i
    decreases |stages| - i
  {
    if i >= |stages| then []
    else if Gate(stages[i], p) then [Event(i, p)] + Gated(stages, p, i + 1)
    else Gated(stages, p, i + 1)
  }

  /** Every call of a phase is of that phase, on a listed stage its gate lets through. */
  lemma {:induction false} GatedPhase(stages: seq<StageSpec>, p: Phase, i: nat)
    ensures forall k :: 0 <= k < |Gated(stages, p, i)| ==>
      var e := Gated(stages, p, i)[k]; e.phase == p && i <= e.stage < |stages| && Gate(stages[e.stage], p)
    decreases |stages| - i
  {
    if i < |stages| {
      GatedPhase(stages, p, i + 1);
      var rest := Gated(stages, p, i + 1);
      if Gate(stages[i], p) {
        var r := [Event(i, p)] + rest;
        assert Gated(stages, p, i) == r && r[0] == Event(i, p);
        assert forall k :: 1 <= k < |r| ==> r[k] == rest[k - 1];
      }
    }
  }

  /** A phase calls exactly the listed stages its gate lets through. */
  lemma {:induction false} GatedMembers(stages: seq<StageSpec>, p: Phase, i: nat, e: Event)
    ensures e in Gated(stages, p, i) <==> e.phase == p && i <= e.stage < |stages| && Gate(stages[e.stage], p)
    decreases |stages| - i
  {
    if i < |stages| {
      GatedMembers(stages, p, i + 1, e);
    }
  }

  /** A phase visits the stages in increasing order. */
  lemma {:induction false} GatedIncreasing(stages: seq<StageSpec>, p: Phase, i: nat)
    ensures forall a, b :: 0 <= a < b < |Gated(stages, p, i)| ==> Gated(stages, p, i)[a].stage < Gated(stages, p, i)[b].stage
    decreases |stages| - i
  {
    if i < |stages| {
      GatedIncreasing(stages, p, i + 1);
      GatedPhase(stages, p, i + 1);
      var rest := Gated(stages, p, i + 1);
      if Gate(stages[i], p) {
        var r := [Event(i, p)] + rest;
        assert Gated(stages, p, i) == r && r[0] == Event(i, p);
        assert forall k :: 1 <= k < |r| ==> r[k] == rest[k - 1];
      }
    }
  }

  /** Phases other than `run` call every stage, the `k`-th call on stage `i + k`. */
  lemma {:induction false} GatedAll(stages: seq<StageSpec>, p: Phase, i: nat)
    requires p != Run && i <= |stages|
    ensures forall k :: 0 <= k < |Gated(stages, p, i)| ==> Gated(stages, p, i)[k] == Event(i + k, p)
    decreases |stages| - i
  {
    if i < |stages| {
      GatedAll(stages, p, i + 1);
      var rest := Gated(stages, p, i + 1);
      var r := [Event(i, p)] + rest;
      assert Gated(stages, p, i) == r && r[0] == Event(i, p);
      forall k | 1 <= k < |r| ensures r[k] == Event(i + k, p) {
        assert r[k] == rest[k - 1];
        assert rest[k - 1] == Event(i + 1 + (k - 1), p);
      }
    }
  }

  /** Initialisation, preparation and running: what happens before the success-path `afterRun`. */
  function Main(stages: seq<StageSpec>): seq<Event> {
    Gated(stages, Init, 0) + Gated(stages, BeforeRun, 0) + Gated(stages, Run, 0)
  }

  /** Every hook call of a run on which nothing fails. */
  function Planned(stages: seq<StageSpec>, isDev: bool): seq<Event> {
    Main(stages) + (if isDev then [] else Gated(stages, AfterRun, 0))
  }

  function Call(hooks: Hooks, e: Event, cleanup: bool): Outcome {
    hooks(e.stage, e.phase, cleanup)
  }

  /** Whether `e` is a `run` turn of a listed stage whose `shouldRun` throws. */
  predicate Throwing(stages: seq<StageSpec>, e: Event) {
    e.phase == Run && e.stage < |stages| && stages[e.stage].shouldRun.Throws?
  }

  /** How each turn settles: a throwing `shouldRun` settles its `run` turn with its error; any other turn is the hook's call. */
  function Turns(stages: seq<StageSpec>, hooks: Hooks): Hooks {
    (i: nat, p: Phase, cleanup: bool) =>
      if Throwing(stages, Event(i, p)) then Rejected(stages[i].shouldRun.error) else hooks(i, p, cleanup)
  }

  /** The calls made and the first error met. */
  datatype Pass = Pass(events: seq<Event>, error: Option<Thrown>)

  /** The position of the first call in `events` that rejects, or -1. */
  function Failing(events: seq<Event>, hooks: Hooks, cleanup: bool): (n: int)
    ensures -1 <= n < |events|
    decreases |events|
  {
    if |events| == 0 then -1
    else if Call(hooks, events[0], cleanup).Rejected? then 0
    else
      var n := Failing(events[1..], hooks, cleanup);
      if n < 0 then -1 else n + 1
  }

  /** How many calls are made: all of them, or up to and including the first rejection. */
  function Reached(events: seq<Event>, hooks: Hooks, cleanup: bool): (n: nat)
    ensures n <= |events|
  {
    var f := Failing(events, hooks, cleanup);
    if f < 0 then |events| else f + 1
  }

  /** `Failing` finds the first rejection: the call there rejects and every earlier call resolves. */
  lemma {:induction false} FailingFacts(events: seq<Event>, hooks: Hooks, cleanup: bool)
    ensures var n := Failing(events, hooks, cleanup);
      && (n >= 0 ==> Call(hooks, events[n], cleanup).Rejected?)
      && (forall k :: 0 <= k < |events| && (n < 0 || k < n) ==> Call(hooks, events[k], cleanup).Resolved?)
    decreases |events|
  {
    if |events| > 0 && Call(hooks, events[0], cleanup).Resolved? {
      FailingFacts(events[1..], hooks, cleanup);
      assert forall k :: 1 <= k < |events| ==> events[k] == events[1..][k - 1];
    }
  }

  /** Making the calls `events` in order, each awaited, stopping at the first rejection. */
  function Perform(events: seq<Event>, hooks: Hooks, cleanup: bool): Pass
    decreases |events|
  {
    if |events| == 0 then Pass([], None)
    else
      var out := Call(hooks, events[0], cleanup);
      if out.Rejected? then Pass([events[0]], Some(out.error))
      else
        var rest := Perform(events[1..], hooks, cleanup);
        Pass([events[0]] + rest.events, rest.error)
  }

  /**
   * `Perform` makes the calls up to the first rejection and reports that rejection's error;
   * with no rejection it makes every call and reports none.
   */
  lemma PerformFailing(events: seq<Event>, hooks: Hooks, cleanup: bool)
    ensures var r, n := Perform(events, hooks, cleanup), Failing(events, hooks, cleanup);
      && r.events == events[..Reached(events, hooks, cleanup)]
      && (n < 0 <==> r.error.None?)
      && (n >= 0 ==> Call(hooks, events[n], cleanup) == Rejected(r.error.value))
  {
    PerformCalls(events, hooks, cleanup);
    PerformError(events, hooks, cleanup);
  }

  /** The calls `Perform` makes are those up to and including the first rejection. */
  lemma {:induction false} PerformCalls(events: seq<Event>, hooks: Hooks, cleanup: bool)
    ensures Perform(events, hooks, cleanup).events == events[..Reached(events, hooks, cleanup)]
    decreases |events|
  {
    if |events| > 0 {
      if Call(hooks, events[0], cleanup).Rejected? {
        assert events[..1] == [events[0]];
      } else {
        var rest := events[1..];
        PerformCalls(rest, hooks, cleanup);
        var m := Reached(rest, hooks, cleanup);
        assert Reached(events, hooks, cleanup) == m + 1;
        assert [events[0]] + rest[..m] == events[..m + 1];
      }
    }
  }

  /** The error `Perform` reports is the first rejection's, and there is none exactly when nothing rejects. */
  lemma {:induction false} PerformError(events: seq<Event>, hooks: Hooks, cleanup: bool)
    ensures var r, n := Perform(events, hooks, cleanup), Failing(events, hooks, cleanup);
      && (n < 0 <==> r.error.None?)
      && (n >= 0 ==> Call(hooks, events[n], cleanup) == Rejected(r.error.value))
    decreases |events|
  {
    if |events| > 0 && Call(hooks, events[0], cleanup).Resolved? {
      var rest := events[1..];
      PerformError(rest, hooks, cleanup);
      var n := Failing(rest, hooks, cleanup);
      if n >= 0 {
        assert events[n + 1] == rest[n];
      }
    }
  }

  /** A pass without error made every call. */
  lemma PerformComplete(events: seq<Event>, hooks: Hooks, cleanup: bool)
    ensures Perform(events, hooks, cleanup).error.None? ==> Perform(events, hooks, cleanup).events == events
  {
    PerformFailing(events, hooks, cleanup);
    assert events[..|events|] == events;
  }

  /** Calls made in two batches are the calls made in one: the second batch runs only if the first did not fail. */
  lemma {:induction false} PerformAppend(a: seq<Event>, b: seq<Event>, hooks: Hooks, cleanup: bool)
    ensures Perform(a + b, hooks, cleanup) ==
      if Perform(a, hooks, cleanup).error.Some? then Perform(a, hooks, cleanup)
      else Pass(a + Perform(b, hooks, cleanup).events, Perform(b, hooks, cleanup).error)
    decreases |a|
  {
    if |a| == 0 {
      assert a + b == b;
    } else {
      assert (a + b)[0] == a[0];
      assert (a + b)[1..] == a[1..] + b;
      PerformAppend(a[1..], b, hooks, cleanup);
      if Call(hooks, a[0], cleanup).Resolved? && Perform(a[1..], hooks, cleanup).error.None? {
        assert [a[0]] + (a[1..] + Perform(b, hooks, cleanup).events) == a + Perform(b, hooks, cleanup).events;
      }
    }
  }

  /** Two ways of settling calls that agree on `events` make the same calls with the same outcome. */
  lemma {:induction false} PerformAgree(events: seq<Event>, h1: Hooks, h2: Hooks, cleanup: bool)
    requires forall k :: 0 <= k < |events| ==> Call(h1, events[k], cleanup) == Call(h2, events[k], cleanup)
    ensures Perform(events, h1, cleanup) == Perform(events, h2, cleanup)
    decreases |events|
  {
    if |events| > 0 {
      var rest := events[1..];
      forall k | 0 <= k < |rest| ensures Call(h1, rest[k], cleanup) == Call(h2, rest[k], cleanup) {
        assert rest[k] == events[k + 1];
      }
      PerformAgree(rest, h1, h2, cleanup);
    }
  }

  /** Outside the `run` loop every turn is the hook's own call. */
  lemma TurnsOutsideRun(stages: seq<StageSpec>, hooks: Hooks, p: Phase, cleanup: bool)
    requires p != Run
    ensures Perform(Gated(stages, p, 0), Turns(stages, hooks), cleanup) == Perform(Gated(stages, p, 0), hooks, cleanup)
  {
    GatedPhase(stages, p, 0);
    PerformAgree(Gated(stages, p, 0), Turns(stages, hooks), hooks, cleanup);
  }

  // ---------------------------------------------------------------------------------------------
  // The loops of `start`

  /**
   * One `for` loop over the stages in phase `p` (`init` aside), from stage `i` on. In the `run` loop
   * `shouldRun` is asked first: false skips the stage and a throw ends the loop with its error.
   */
  function PhaseLoop(stages: seq<StageSpec>, p: Phase, cleanup: bool, hooks: Hooks, i: nat): (r: Pass)
    ensures r == Perform(Gated(stages, p, i), Turns(stages, hooks), cleanup)
    decreases |stages| - i
  {
    if i >= |stages| then Pass([], None)
    else if p == Run && stages[i].shouldRun.Skips? then PhaseLoop(stages, p, cleanup, hooks, i + 1)
    else
      var out := if p == Run && stages[i].shouldRun.Throws? then Rejected(stages[i].shouldRun.error) else hooks(i, p, cleanup);
      var g := Gated(stages, p, i + 1);
      assert ([Event(i, p)] + g)[0] == Event(i, p) && ([Event(i, p)] + g)[1..] == g;
      assert Call(Turns(stages, hooks), Event(i, p), cleanup) == out by {
        assert Throwing(stages, Event(i, p)) <==> p == Run && stages[i].shouldRun.Throws?;
      }
      if out.Rejected? then Pass([Event(i, p)], Some(out.error))
      else
        var rest := PhaseLoop(stages, p, cleanup, hooks, i + 1);
        Pass([Event(i, p)] + rest.events, rest.error)
  }

  /** The `init` loop's calls, the registry each `init` saw, and its first error. */
  datatype InitPass = InitPass(events: seq<Event>, views: seq<map<string, nat>>, error: Option<Thrown>)

  /** The `init` loop from stage `i` on, with `reg` registered so far: a stage is registered after its own `init` resolves. */
  function InitLoop(stages: seq<StageSpec>, hooks: Hooks, i: nat, reg: map<string, nat>): (r: InitPass)
    requires i <= |stages| && reg == Registry(stages[..i])
    ensures Pass(r.events, r.error) == Perform(Gated(stages, Init, i), hooks, false)
    ensures |r.views| == |r.events| && i + |r.views| <= |stages|
    ensures forall k :: 0 <= k < |r.views| ==> r.views[k] == Registry(stages[..i + k])
    decreases |stages| - i
  {
    if i == |stages| then InitPass([], [], None)
    else
      var out := hooks(i, Init, false);
      var g := Gated(stages, Init, i + 1);
      assert ([Event(i, Init)] + g)[0] == Event(i, Init) && ([Event(i, Init)] + g)[1..] == g;
      if out.Rejected? then InitPass([Event(i, Init)], [reg], Some(out.error))
      else
        assert stages[..i + 1][..i] == stages[..i];
        var rest := InitLoop(stages, hooks, i + 1, reg[stages[i].name := i]);
        InitPass([Event(i, Init)] + rest.events, [reg] + rest.views, rest.error)
  }

  /** The hook calls of the `try` block and its first error. */
  function TryBlock(stages: seq<StageSpec>, isDev: bool, hooks: Hooks, init: InitPass): Pass {
    if init.error.Some? then Pass(init.events, init.error)
    else
      var before := PhaseLoop(stages, BeforeRun, false, hooks, 0);
      if before.error.Some? then Pass(init.events + before.events, before.error)
      else
        var run := PhaseLoop(stages, Run, false, hooks, 0);
        if run.error.Some? || isDev then Pass(init.events + before.events + run.events, run.error)
        else
          var after := PhaseLoop(stages, AfterRun, false, hooks, 0);
          Pass(init.events + before.events + run.events + after.events, after.error)
  }

  /** The stages run, the hook calls in order, the registry seen by each `init`, and the settled promise. */
  datatype Session = Session(stages: seq<StageSpec>, trace: seq<Event>, views: seq<map<string, nat>>, verdict: Outcome)

  /**
   * `start(dwtPath, config)`. `setup` is how building the record and reading `config.plugins`
   * went; `plugins` is `config.plugins || []` and `isDev` the record's flag. On an error in the
   * `try` block, a hook's rejection or a throw from `shouldRun`, every stage gets `afterRun` (with
   * `cleanup` set); an error from one of those escapes as it is, any other is wrapped.
   */
  function Start(setup: Outcome, isDev: bool, plugins: seq<StageSpec>, hooks: Hooks): (r: Session)
    ensures setup.Rejected? ==> r == Session([], [], [], Rejected(Wrap(setup.error)))
    ensures setup.Resolved? ==> r.stages == [Head] + plugins
  {
    if setup.Rejected? then Session([], [], [], Rejected(Wrap(setup.error)))
    else
      var stages := [Head] + plugins;
      assert stages[..0] == [];
      var init := InitLoop(stages, hooks, 0, map[]);
      var main := TryBlock(stages, isDev, hooks, init);
      if main.error.None? then Session(stages, main.events, init.views, Resolved)
      else
        var cleanup := PhaseLoop(stages, AfterRun, true, hooks, 0);
        Session(stages, main.events + cleanup.events, init.views,
            if cleanup.error.Some? then Rejected(cleanup.error.value) else Rejected(Wrap(main.error.value)))
  }

  // ---------------------------------------------------------------------------------------------
  // What a run does, stated against the plan

  /**
   * A started run makes the planned calls up to the first rejection; after one, every stage's
   * `afterRun` is called in cleanup mode up to the first rejection there.
   */
  lemma StartFollowsPlan(isDev: bool, plugins: seq<StageSpec>, hooks: Hooks)
    ensures var r := Start(Resolved, isDev, plugins, hooks);
      var stages := [Head] + plugins;
      var m := Perform(Planned(stages, isDev), Turns(stages, hooks), false);
      var c := Perform(Gated(stages, AfterRun, 0), hooks, true);
      && r.trace == m.events + (if m.error.Some? then c.events else [])
      && r.verdict == (if m.error.None? then Resolved
                       else if c.error.Some? then Rejected(c.error.value)
                       else Rejected(Wrap(m.error.value)))
  {
    var stages := [Head] + plugins;
    assert stages[..0] == [];
    TryBlockPerformsPlan(stages, isDev, hooks);
    TurnsOutsideRun(stages, hooks, AfterRun, true);
  }

  /** The `try` block makes the planned calls up to the first rejection and reports its error. */
  lemma TryBlockPerformsPlan(stages: seq<StageSpec>, isDev: bool, hooks: Hooks)
    requires stages[..0] == []
    ensures TryBlock(stages, isDev, hooks, InitLoop(stages, hooks, 0, map[])) == Perform(Planned(stages, isDev), Turns(stages, hooks), false)
  {
    var t := Turns(stages, hooks);
    var init := InitLoop(stages, hooks, 0, map[]);
    var gi, gb, gr, ga := Gated(stages, Init, 0), Gated(stages, BeforeRun, 0), Gated(stages, Run, 0), Gated(stages, AfterRun, 0);
    TurnsOutsideRun(stages, hooks, Init, false);
    PerformAppend(gi, gb, t, false);
    PerformAppend(gi + gb, gr, t, false);
    PerformAppend(gi + gb + gr, ga, t, false);
    PerformComplete(gi, t, false);
    PerformComplete(gi + gb, t, false);
    PerformComplete(gb, t, false);
    PerformComplete(gr, t, false);
    assert Main(stages) == gi + gb + gr;
    if isDev {
      assert Planned(stages, isDev) == gi + gb + gr + [] == gi + gb + gr;
    }
  }

  /**
   * The registry each `init` sees: stage `k` is initialised `k`-th and sees the stages before it
   * registered, the lease-cache stage first with an empty registry.
   */
  lemma InitSeesEarlierStages(isDev: bool, plugins: seq<StageSpec>, hooks: Hooks)
    ensures var r := Start(Resolved, isDev, plugins, hooks);
      && |r.trace| > 0 && r.trace[0] == Event(0, Init)
      && |r.views| > 0 && r.views[0] == map[]
      && |r.views| <= |r.stages|
      && forall k :: 0 <= k < |r.views| ==> r.trace[k] == Event(k, Init) && r.views[k] == Registry(r.stages[..k])
  {
    var stages := [Head] + plugins;
    assert stages[..0] == [];
    var init := InitLoop(stages, hooks, 0, map[]);
    InitCalls(stages, hooks);
    InitLeadsTrace(isDev, plugins, hooks);
    var r := Start(Resolved, isDev, plugins, hooks);
    forall k | 0 <= k < |r.views| ensures r.trace[k] == Event(k, Init) {
      assert r.trace[k] == r.trace[..|init.events|][k] == init.events[k];
    }
  }

  /** The `init` pass calls `init` on the stages in order, reaching at least the first. */
  lemma InitCalls(stages: seq<StageSpec>, hooks: Hooks)
    requires |stages| > 0 && stages[..0] == []
    ensures var init := InitLoop(stages, hooks, 0, map[]);
      && |init.events| > 0
      && forall k :: 0 <= k < |init.events| ==> init.events[k] == Event(k, Init)
  {
    var init := InitLoop(stages, hooks, 0, map[]);
    var g := Gated(stages, Init, 0);
    GatedAll(stages, Init, 0);
    PerformFailing(g, hooks, false);
    var n := Reached(g, hooks, false);
    assert init.events == g[..n];
    assert n > 0 by {
      if Failing(g, hooks, false) < 0 {
        assert n == |g| == |stages|;
      }
    }
    forall k | 0 <= k < |init.events| ensures init.events[k] == Event(k, Init) {
      assert init.events[k] == g[k];
    }
  }

  /** A started run's calls begin with those of the `init` pass, and its views are that pass's. */
  lemma InitLeadsTrace(isDev: bool, plugins: seq<StageSpec>, hooks: Hooks)
    ensures var stages := [Head] + plugins;
      var r := Start(Resolved, isDev, plugins, hooks);
      && stages[..0] == []
      && var init := InitLoop(stages, hooks, 0, map[]);
      && |init.events| <= |r.trace| && r.trace[..|init.events|] == init.events
      && r.views == init.views && r.stages == stages
  {
    var stages := [Head] + plugins;
    assert stages[..0] == [];
    var init := InitLoop(stages, hooks, 0, map[]);
    var main := TryBlock(stages, isDev, hooks, init);
    assert main.events[..|init.events|] == init.events;
  }

  // ---------------------------------------------------------------------------------------------
  // Ordering

  /** Phases never go backwards along `s`. */
  ghost predicate Monotone(s: seq<Event>) {
    forall j, k :: 0 <= j < k < |s| ==> Rank(s[j].phase) <= Rank(s[k].phase)
  }

  /** Within one phase, stages come in list order. */
  ghost predicate InListOrder(s: seq<Event>) {
    forall j, k :: 0 <= j < k < |s| && s[j].phase == s[k].phase ==> s[j].stage < s[k].stage
  }

  /** Every phase in `s` lies in the rank range `lo..hi`. */
  ghost predicate Within(s: seq<Event>, lo: nat, hi: nat) {
    forall k :: 0 <= k < |s| ==> lo <= Rank(s[k].phase) <= hi
  }

  /** Two ordered runs of calls, the second in phases no earlier than the first, make an ordered run. */
  lemma Concat(a: seq<Event>, b: seq<Event>, lo: nat, mid: nat, hi: nat)
    requires lo <= mid <= hi
    requires Monotone(a) && Monotone(b) && Within(a, lo, mid) && Within(b, mid, hi)
    ensures Monotone(a + b) && Within(a + b, lo, hi)
    ensures InListOrder(a) && InListOrder(b) && Within(b, mid + 1, hi) ==> InListOrder(a + b)
  {
    forall k | 0 <= k < |a + b| ensures lo <= Rank((a + b)[k].phase) <= hi {
      if k < |a| {
        assert (a + b)[k] == a[k];
      } else {
        assert (a + b)[k] == b[k - |a|];
      }
    }
    forall j, k | 0 <= j < k < |a + b| ensures Rank((a + b)[j].phase) <= Rank((a + b)[k].phase) {
      if j < |a| && k < |a| {
        assert (a + b)[j] == a[j] && (a + b)[k] == a[k];
      } else if j < |a| {
        assert (a + b)[j] == a[j] && (a + b)[k] == b[k - |a|];
      } else {
        assert (a + b)[j] == b[j - |a|] && (a + b)[k] == b[k - |a|];
      }
    }
    if InListOrder(a) && InListOrder(b) && Within(b, mid + 1, hi) {
      forall j, k | 0 <= j < k < |a + b| && (a + b)[j].phase == (a + b)[k].phase
        ensures (a + b)[j].stage < (a + b)[k].stage
      {
        if j < |a| && k < |a| {
          assert (a + b)[j] == a[j] && (a + b)[k] == a[k];
        } else if j >= |a| {
          assert (a + b)[j] == b[j - |a|] && (a + b)[k] == b[k - |a|];
        }
      }
    }
  }

  /** One phase's calls are all of that phase, in list order. */
  lemma GatedBlock(stages: seq<StageSpec>, p: Phase)
    ensures var g := Gated(stages, p, 0); Monotone(g) && InListOrder(g) && Within(g, Rank(p), Rank(p))
  {
    GatedPhase(stages, p, 0);
    GatedIncreasing(stages, p, 0);
  }

  /** The planned calls go phase by phase, each phase in list order. */
  lemma PlannedOrdered(stages: seq<StageSpec>, isDev: bool)
    ensures Monotone(Planned(stages, isDev)) && InListOrder(Planned(stages, isDev))
    ensures Within(Planned(stages, isDev), 0, 3)
  {
    var q := Main(stages);
    MainOrdered(stages);
    if isDev {
      assert Planned(stages, isDev) == q + [] == q;
    } else {
      GatedBlock(stages, AfterRun);
      Concat(q, Gated(stages, AfterRun, 0), 0, 2, 3);
    }
  }

  /** The `init`, `beforeRun` and `run` passes go phase by phase, each in list order. */
  lemma MainOrdered(stages: seq<StageSpec>)
    ensures Monotone(Main(stages)) && InListOrder(Main(stages)) && Within(Main(stages), 0, 2)
  {
    var gi, gb, gr := Gated(stages, Init, 0), Gated(stages, BeforeRun, 0), Gated(stages, Run, 0);
    GatedBlock(stages, Init);
    GatedBlock(stages, BeforeRun);
    GatedBlock(stages, Run);
    Concat(gi, gb, 0, 0, 1);
    Concat(gi + gb, gr, 0, 1, 2);
  }

  lemma PrefixOrdered(s: seq<Event>, n: nat, lo: nat, hi: nat)
    requires n <= |s| && Monotone(s) && Within(s, lo, hi)
    ensures Monotone(s[..n]) && Within(s[..n], lo, hi)
    ensures InListOrder(s) ==> InListOrder(s[..n])
  {
    assert forall k :: 0 <= k < n ==> s[..n][k] == s[k];
  }

  /**
   * Phase barrier: no call of a later phase precedes a call of an earlier one, whatever
   * fails; on success each phase visits the stages in list order.
   */
  lemma PhaseBarrier(setup: Outcome, isDev: bool, plugins: seq<StageSpec>, hooks: Hooks)
    ensures var r := Start(setup, isDev, plugins, hooks);
      && (forall j, k :: 0 <= j < k < |r.trace| ==> Rank(r.trace[j].phase) <= Rank(r.trace[k].phase))
      && (r.verdict.Resolved? ==> forall j, k :: 0 <= j < k < |r.trace| && r.trace[j].phase == r.trace[k].phase ==>
            r.trace[j].stage < r.trace[k].stage)
  {
    if setup.Resolved? {
      var stages := [Head] + plugins;
      var p, t := Planned(stages, isDev), Turns(stages, hooks);
      var m := Perform(p, t, false);
      var g := Gated(stages, AfterRun, 0);
      var c := Perform(g, hooks, true);
      StartFollowsPlan(isDev, plugins, hooks);
      PlannedOrdered(stages, isDev);
      PerformFailing(p, t, false);
      PrefixOrdered(p, Reached(p, t, false), 0, 3);
      if m.error.Some? {
        GatedBlock(stages, AfterRun);
        PerformFailing(g, hooks, true);
        PrefixOrdered(g, Reached(g, hooks, true), 3, 3);
        Concat(m.events, c.events, 0, 3, 3);
      }
    }
  }

  // ---------------------------------------------------------------------------------------------
  // Which hooks a successful run calls

  /** A call is planned exactly when its stage exists, its gate lets it through, and it is not a dev-mode `afterRun`. */
  lemma PlannedMembers(stages: seq<StageSpec>, isDev: bool, e: Event)
    ensures e in Planned(stages, isDev) <==>
      e.stage < |stages| && Gate(stages[e.stage], e.phase) && (e.phase == AfterRun ==> !isDev)
  {
    var gi, gb, gr, ga := Gated(stages, Init, 0), Gated(stages, BeforeRun, 0), Gated(stages, Run, 0), Gated(stages, AfterRun, 0);
    GatedMembers(stages, Init, 0, e);
    GatedMembers(stages, BeforeRun, 0, e);
    GatedMembers(stages, Run, 0, e);
    GatedMembers(stages, AfterRun, 0, e);
    if isDev {
      assert Planned(stages, isDev) == gi + gb + gr + [];
    }
  }

  /**
   * A run resolves exactly when no planned `run` turn meets a throwing `shouldRun` and every planned
   * call resolves, and then it made exactly the planned calls.
   */
  lemma SucceedsIffPlanResolves(isDev: bool, plugins: seq<StageSpec>, hooks: Hooks)
    ensures var stages := [Head] + plugins;
      var p := Planned(stages, isDev);
      Start(Resolved, isDev, plugins, hooks).verdict.Resolved? <==>
        forall k :: 0 <= k < |p| ==> !Throwing(stages, p[k]) && Call(hooks, p[k], false).Resolved?
    ensures Start(Resolved, isDev, plugins, hooks).verdict.Resolved? ==>
      Start(Resolved, isDev, plugins, hooks).trace == Planned([Head] + plugins, isDev)
  {
    var stages := [Head] + plugins;
    var p, t := Planned(stages, isDev), Turns(stages, hooks);
    StartFollowsPlan(isDev, plugins, hooks);
    FailingFacts(p, t, false);
    PerformFailing(p, t, false);
    assert p[..|p|] == p;
    forall k | 0 <= k < |p|
      ensures Call(t, p[k], false).Resolved? <==> !Throwing(stages, p[k]) && Call(hooks, p[k], false).Resolved?
    {
    }
  }

  /**
   * On success every stage is initialised and prepared, `run` is called exactly on the stages
   * whose `shouldRun` is true, and `afterRun` on every stage unless in dev mode, where it is
   * never called.
   */
  lemma SuccessCalls(setup: Outcome, isDev: bool, plugins: seq<StageSpec>, hooks: Hooks, i: nat)
    requires Start(setup, isDev, plugins, hooks).verdict.Resolved?
    ensures var r := Start(setup, isDev, plugins, hooks);
      && (Event(i, Init) in r.trace <==> i < |r.stages|)
      && (Event(i, BeforeRun) in r.trace <==> i < |r.stages|)
      && (Event(i, Run) in r.trace <==> i < |r.stages| && r.stages[i].shouldRun.Runs?)
      && (Event(i, AfterRun) in r.trace <==> i < |r.stages| && !isDev)
  {
    var stages := [Head] + plugins;
    SucceedsIffPlanResolves(isDev, plugins, hooks);
    PlannedMembers(stages, isDev, Event(i, Init));
    PlannedMembers(stages, isDev, Event(i, BeforeRun));
    PlannedMembers(stages, isDev, Event(i, Run));
    PlannedMembers(stages, isDev, Event(i, AfterRun));
    var p := Planned(stages, isDev);
    if Event(i, Run) in p {
      var k :| 0 <= k < |p| && p[k] == Event(i, Run);
      assert !Throwing(stages, p[k]);
    }
  }

  // ---------------------------------------------------------------------------------------------
  // The failure path

  /** How often `e` occurs in `s`. */
  function Count(s: seq<Event>, e: Event): nat {
    multiset(s)[e]
  }

  lemma CountAppend(a: seq<Event>, b: seq<Event>, e: Event)
    ensures Count(a + b, e) == Count(a, e) + Count(b, e)
  {
    assert multiset(a + b) == multiset(a) + multiset(b);
  }

  /** In a run of calls with increasing stages, a call occurs at most once. */
  lemma {:induction false} CountIncreasing(s: seq<Event>, e: Event)
    requires forall a, b :: 0 <= a < b < |s| ==> s[a].stage < s[b].stage
    ensures Count(s, e) == if e in s then 1 else 0
    decreases |s|
  {
    if |s| > 0 {
      assert s == [s[0]] + s[1..];
      CountIncreasing(s[1..], e);
      if e == s[0] {
        assert e !in s[1..];
      }
    }
  }

  /** Initialisation, preparation and running never call `afterRun`. */
  lemma MainHasNoAfterRun(stages: seq<StageSpec>, n: nat, i: nat)
    requires n <= |Main(stages)|
    ensures Count(Main(stages)[..n], Event(i, AfterRun)) == 0
  {
    var gi, gb, gr := Gated(stages, Init, 0), Gated(stages, BeforeRun, 0), Gated(stages, Run, 0);
    GatedBlock(stages, Init);
    GatedBlock(stages, BeforeRun);
    GatedBlock(stages, Run);
    Concat(gi, gb, 0, 0, 1);
    Concat(gi + gb, gr, 0, 1, 2);
    var q := Main(stages);
    assert q == gi + gb + gr;
    forall k | 0 <= k < n ensures q[..n][k] != Event(i, AfterRun) {
      assert q[..n][k] == q[k];
    }
  }

  /** The cleanup calls, and any prefix of them, call each stage's `afterRun` at most once. */
  lemma AfterRunCounts(stages: seq<StageSpec>, n: nat, i: nat)
    requires n <= |stages|
    ensures Count(Gated(stages, AfterRun, 0)[..n], Event(i, AfterRun)) == if i < n then 1 else 0
  {
    var g := Gated(stages, AfterRun, 0);
    var h := g[..n];
    GatedAll(stages, AfterRun, 0);
    assert forall k :: 0 <= k < n ==> h[k] == g[k];
    assert forall k :: 0 <= k < n ==> h[k] == Event(k, AfterRun);
    CountIncreasing(h, Event(i, AfterRun));
    if i < n {
      assert h[i] == Event(i, AfterRun);
    }
  }

  /**
   * An error in `init`, `beforeRun` or `run` (in dev mode too) leads to exactly one `afterRun` on
   * every listed stage, initialised or not, when those resolve, and then to the wrapped error.
   */
  lemma FailureCleansEveryStageOnce(isDev: bool, plugins: seq<StageSpec>, hooks: Hooks, i: nat)
    requires Perform(Main([Head] + plugins), Turns([Head] + plugins, hooks), false).error.Some?
    requires Perform(Gated([Head] + plugins, AfterRun, 0), hooks, true).error.None?
    ensures var r := Start(Resolved, isDev, plugins, hooks);
      && r.verdict == Rejected(Wrap(Perform(Main([Head] + plugins), Turns([Head] + plugins, hooks), false).error.value))
      && Count(r.trace, Event(i, AfterRun)) == if i < |r.stages| then 1 else 0
  {
    var stages := [Head] + plugins;
    var q, t := Main(stages), Turns(stages, hooks);
    var mq := Perform(q, t, false);
    var g := Gated(stages, AfterRun, 0);
    StartFollowsPlan(isDev, plugins, hooks);
    PerformAppend(q, g, t, false);
    assert Perform(Planned(stages, isDev), t, false) == mq by {
      if isDev {
        assert Planned(stages, isDev) == q + [];
        assert q + [] == q;
      }
    }
    PerformFailing(q, t, false);
    PerformFailing(g, hooks, true);
    assert g[..|g|] == g;
    MainHasNoAfterRun(stages, Reached(q, t, false), i);
    AfterRunCounts(stages, |stages|, i);
    var r := Start(Resolved, isDev, plugins, hooks);
    assert r.trace == mq.events + g;
    CountAppend(mq.events, g, Event(i, AfterRun));
  }

  /** When the calls before position `n` resolve and the one at `n` rejects, `n` is the first rejection. */
  lemma {:induction false} FailingAt(events: seq<Event>, hooks: Hooks, cleanup: bool, n: nat)
    requires n < |events| && Call(hooks, events[n], cleanup).Rejected?
    requires forall k :: 0 <= k < n ==> Call(hooks, events[k], cleanup).Resolved?
    ensures Failing(events, hooks, cleanup) == n
    decreases n
  {
    if n > 0 {
      var rest := events[1..];
      forall k | 0 <= k < n - 1 ensures Call(hooks, rest[k], cleanup).Resolved? {
        assert rest[k] == events[k + 1];
      }
      assert rest[n - 1] == events[n];
      FailingAt(rest, hooks, cleanup, n - 1);
    }
  }

  /**
   * A `shouldRun` that throws at its stage's `run` turn, after every earlier call resolved, ends the
   * `try` block there: no later `run` turn and no success-path `afterRun` follows, every stage gets
   * its cleanup `afterRun`, and `start` rejects with the wrapped error of `shouldRun`.
   */
  lemma ThrowingGateCleansUp(isDev: bool, plugins: seq<StageSpec>, hooks: Hooks, n: nat)
    requires n < |Main([Head] + plugins)| && Throwing([Head] + plugins, Main([Head] + plugins)[n])
    requires forall k :: 0 <= k < n ==>
      !Throwing([Head] + plugins, Main([Head] + plugins)[k]) && Call(hooks, Main([Head] + plugins)[k], false).Resolved?
    requires Perform(Gated([Head] + plugins, AfterRun, 0), hooks, true).error.None?
    ensures var stages := [Head] + plugins;
      var r := Start(Resolved, isDev, plugins, hooks);
      && r.trace == Main(stages)[..n + 1] + Gated(stages, AfterRun, 0)
      && r.verdict == Rejected(Wrap(stages[Main(stages)[n].stage].shouldRun.error))
  {
    var stages := [Head] + plugins;
    var q, t, g := Main(stages), Turns(stages, hooks), Gated(stages, AfterRun, 0);
    assert Call(t, q[n], false) == Rejected(stages[q[n].stage].shouldRun.error);
    forall k | 0 <= k < n ensures Call(t, q[k], false).Resolved? {
      assert Call(t, q[k], false) == Call(hooks, q[k], false);
    }
    FailingAt(q, t, false, n);
    PerformFailing(q, t, false);
    StartFollowsPlan(isDev, plugins, hooks);
    PerformAppend(q, g, t, false);
    assert Perform(Planned(stages, isDev), t, false) == Perform(q, t, false) by {
      if isDev {
        assert Planned(stages, isDev) == q + [];
        assert q + [] == q;
      }
    }
    PerformFailing(g, hooks, true);
    assert g[..|g|] == g;
  }

  /** After the planned calls, a prefix of the `afterRun` calls and all of them, stage `i` has been cleaned once or twice. */
  lemma RepeatCounts(stages: seq<StageSpec>, n: nat, i: nat)
    requires n < |stages| && i < |stages|
    ensures Count(Main(stages) + Gated(stages, AfterRun, 0)[..n + 1] + Gated(stages, AfterRun, 0), Event(i, AfterRun))
      == if i <= n then 2 else 1
  {
    var q, g, e := Main(stages), Gated(stages, AfterRun, 0), Event(i, AfterRun);
    var h := g[..n + 1];
    MainHasNoAfterRunAtAll(stages, i);
    AfterRunOnceEach(stages, i);
    AfterRunCounts(stages, n + 1, i);
    CountRepeat(q, h, g, e, i <= n);
  }

  /** No call of the main plan is an `afterRun`. */
  lemma MainHasNoAfterRunAtAll(stages: seq<StageSpec>, i: nat)
    ensures Count(Main(stages), Event(i, AfterRun)) == 0
  {
    var q := Main(stages);
    MainHasNoAfterRun(stages, |q|, i);
    assert q[..|q|] == q;
  }

  /** The `afterRun` pass calls each stage's `afterRun` exactly once. */
  lemma AfterRunOnceEach(stages: seq<StageSpec>, i: nat)
    requires i < |stages|
    ensures Count(Gated(stages, AfterRun, 0), Event(i, AfterRun)) == 1
  {
    var g := Gated(stages, AfterRun, 0);
    AfterRunCounts(stages, |stages|, i);
    assert g[..|stages|] == g;
  }

  /** A call absent from `a`, once in `c` and in `b` exactly when `twice` occurs twice or once in `a + b + c`. */
  lemma CountRepeat(a: seq<Event>, b: seq<Event>, c: seq<Event>, e: Event, twice: bool)
    requires Count(a, e) == 0 && Count(c, e) == 1
    requires Count(b, e) == if twice then 1 else 0
    ensures Count(a + b + c, e) == if twice then 2 else 1
  {
    CountAppend(a, b, e);
    CountAppend(a + b, c, e);
  }

  /** The calls of a run whose first failure is the `afterRun` of stage `Failing(...)` on the success path. */
  lemma AfterRunFailureTrace(plugins: seq<StageSpec>, hooks: Hooks)
    requires Perform(Main([Head] + plugins), Turns([Head] + plugins, hooks), false).error.None?
    requires Perform(Gated([Head] + plugins, AfterRun, 0), hooks, false).error.Some?
    requires Perform(Gated([Head] + plugins, AfterRun, 0), hooks, true).error.None?
    ensures var stages := [Head] + plugins;
      var g := Gated(stages, AfterRun, 0);
      var n := Failing(g, hooks, false);
      var r := Start(Resolved, false, plugins, hooks);
      && 0 <= n < |stages|
      && hooks(n, AfterRun, false).Rejected?
      && r.trace == Main(stages) + g[..n + 1] + g
      && r.verdict == Rejected(Wrap(Perform(g, hooks, false).error.value))
  {
    var stages := [Head] + plugins;
    var q, g, t := Main(stages), Gated(stages, AfterRun, 0), Turns(stages, hooks);
    StartFollowsPlan(false, plugins, hooks);
    PerformAppend(q, g, t, false);
    PerformComplete(q, t, false);
    TurnsOutsideRun(stages, hooks, AfterRun, false);
    PerformComplete(g, hooks, true);
    PerformFailing(g, hooks, false);
    GatedAll(stages, AfterRun, 0);
  }

  /**
   * An `afterRun` that rejects on the success path re-enters the cleanup: that stage and every
   * stage before it get `afterRun` twice, the later ones once, and the error is wrapped when the
   * cleanup calls resolve.
   */
  lemma AfterRunFailureRepeats(plugins: seq<StageSpec>, hooks: Hooks)
    requires Perform(Main([Head] + plugins), Turns([Head] + plugins, hooks), false).error.None?
    requires Perform(Gated([Head] + plugins, AfterRun, 0), hooks, false).error.Some?
    requires Perform(Gated([Head] + plugins, AfterRun, 0), hooks, true).error.None?
    ensures var r := Start(Resolved, false, plugins, hooks);
      var j := Failing(Gated([Head] + plugins, AfterRun, 0), hooks, false);
      && r.verdict == Rejected(Wrap(Perform(Gated([Head] + plugins, AfterRun, 0), hooks, false).error.value))
      && 0 <= j < |r.stages| && hooks(j, AfterRun, false).Rejected?
      && forall i :: 0 <= i < |r.stages| ==> Count(r.trace, Event(i, AfterRun)) == if i <= j then 2 else 1
  {
    var stages := [Head] + plugins;
    AfterRunFailureTrace(plugins, hooks);
    var n := Failing(Gated(stages, AfterRun, 0), hooks, false);
    var r := Start(Resolved, false, plugins, hooks);
    RepeatCountsAll(stages, n, r.trace);
  }

  /** `RepeatCounts` for every stage at once. */
  lemma RepeatCountsAll(stages: seq<StageSpec>, n: nat, trace: seq<Event>)
    requires n < |stages|
    requires trace == Main(stages) + Gated(stages, AfterRun, 0)[..n + 1] + Gated(stages, AfterRun, 0)
    ensures forall i :: 0 <= i < |stages| ==> Count(trace, Event(i, AfterRun)) == if i <= n then 2 else 1
  {
    forall i | 0 <= i < |stages| ensures Count(trace, Event(i, AfterRun)) == if i <= n then 2 else 1 {
      RepeatCounts(stages, n, i);
    }
  }
}
