/** The sequencing engine of the build command as pure functions: which
    collaborator calls a run makes, in which order, and with which keyword
    arguments. `Command.BuildCommand.Call` is proved to produce exactly this
    trace. */
module Sequencing {
  import opened Phases
  import opened Registry
  import opened PhaseState
  import opened Actions

  /** A phase collaborator (`create`, `update` or `build`): given the phase,
      the app's name and the call's keyword arguments, it returns the
      result that later calls see under `<phase>_state`. */
  type Collaborator = (AppPhase, string, Kwargs) -> string

  /** The collaborators of the test fixtures: every phase call on an app
      returns the app's name. */
  function EchoName(p: AppPhase, app: string, kwargs: Kwargs): string
  {
    app
  }

  /** The calls made so far and the state they left behind. */
  datatype Run = Run(actions: seq<Action>, state: State)

  /** Runs `phases` on `app` in order, starting from state `st`: each call
      gets the options merged with the current state, and its result
      replaces the state entry of its phase. */
  function RunPhases(app: App, phases: seq<AppPhase>, opts: Options, c: Collaborator, st: State): (r: Run)
    ensures |r.actions| == |phases|
    ensures forall k :: 0 <= k < |phases| ==> r.actions[k] == AppAction(phases[k], app.name, r.actions[k].kwargs)
    decreases |phases|
  {
    if phases == [] then Run([], st)
    else
      var kwargs := ArgsFor(opts, st);
      var rest := RunPhases(app, phases[1..], opts, c, st[phases[0] := c(phases[0], app.name, kwargs)]);
      Run([AppAction(phases[0], app.name, kwargs)] + rest.actions, rest.state)
  }

  /** Runs each app's decided phases, app after app, threading one state
      through all of them: it is never reset between apps. */
  function RunApps(apps: seq<App>, opts: Options, c: Collaborator, st: State): (r: Run)
    ensures forall k :: 0 <= k < |r.actions| ==> r.actions[k].AppAction?
    decreases |apps|
  {
    if apps == [] then Run([], st)
    else
      var first := RunPhases(apps[0], Decide(apps[0].appExists, opts.update), opts, c, st);
      var rest := RunApps(apps[1..], opts, c, first.state);
      assert forall k :: 0 <= k < |first.actions| ==> first.actions[k].AppAction?;
      Run(first.actions + rest.actions, rest.state)
  }

  /** Running phases adds an entry for each phase run and removes none. */
  lemma {:induction false} RunPhasesStateKeys(app: App, phases: seq<AppPhase>, opts: Options, c: Collaborator, st: State)
    ensures RunPhases(app, phases, opts, c, st).state.Keys == st.Keys + (set p | p in phases)
    decreases |phases|
  {
    if phases != [] {
      var next := st[phases[0] := c(phases[0], app.name, ArgsFor(opts, st))];
      RunPhasesStateKeys(app, phases[1..], opts, c, next);
      assert forall p :: p in phases <==> p == phases[0] || p in phases[1..];
    }
  }

  /** State is never removed during a run, and once any app has been
      processed a build result is present. */
  lemma {:induction false} RunAppsStateKeys(apps: seq<App>, opts: Options, c: Collaborator, st: State)
    ensures var r := RunApps(apps, opts, c, st);
      st.Keys <= r.state.Keys && (apps != [] ==> Build in r.state)
    decreases |apps|
  {
    if apps != [] {
      var phases := Decide(apps[0].appExists, opts.update);
      var first := RunPhases(apps[0], phases, opts, c, st);
      RunPhasesStateKeys(apps[0], phases, opts, c, st);
      RunAppsStateKeys(apps[1..], opts, c, first.state);
      assert Build in phases;
    }
  }

  /** The whole action log of one invocation on the selected `apps`: the
      tools are verified once, first, with the options alone, then every
      app's phases follow. */
  function Trace(apps: seq<App>, opts: Options, c: Collaborator): (r: seq<Action>)
    ensures |r| > 0 && r[0] == VerifyAction(ArgsFor(opts, map[]))
    ensures r[0].kwargs.Keys == {InputEnabled, Verbosity}
    ensures forall k :: 1 <= k < |r| ==> r[k].AppAction?
  {
    [VerifyAction(ArgsFor(opts, map[]))] + RunApps(apps, opts, c, map[]).actions
  }

  /** The apps to process: the one named, or the whole registry in
      registration order. */
  function Targets(registry: seq<App>, app: Option<App>): seq<App>
  {
    match app
    case Some(a) => [a]
    case None => registry
  }

  // ---------------------------------------------------------------------
  // Which calls are made, and in which order

  /** `phases`, each paired with the app name. */
  function Tag(phases: seq<AppPhase>, name: string): seq<Call>
  {
    seq(|phases|, k requires 0 <= k < |phases| => Call(phases[k], name))
  }

  /** The calls a run must make, independent of any state: each app in
      order, with the phases the decision table picks for it. */
  function Plan(apps: seq<App>, updateRequested: bool): seq<Call>
  {
    if apps == [] then []
    else Tag(Decide(apps[0].appExists, updateRequested), apps[0].name) + Plan(apps[1..], updateRequested)
  }

  lemma {:induction false} RunAppsFollowsPlan(apps: seq<App>, opts: Options, c: Collaborator, st: State)
    ensures Calls(RunApps(apps, opts, c, st).actions) == Plan(apps, opts.update)
    decreases |apps|
  {
    if apps != [] {
      var phases := Decide(apps[0].appExists, opts.update);
      var first := RunPhases(apps[0], phases, opts, c, st);
      var rest := RunApps(apps[1..], opts, c, first.state);
      CallsAppend(first.actions, rest.actions);
      CallsOfPhaseLog(first.actions);
      RunAppsFollowsPlan(apps[1..], opts, c, first.state);
      assert Calls(first.actions) == Tag(phases, apps[0].name);
    }
  }

  /** Whatever the collaborators return, a run makes exactly the calls of
      the plan, after the one verify record. */
  lemma TraceFollowsPlan(apps: seq<App>, opts: Options, c: Collaborator)
    ensures Calls(Trace(apps, opts, c)) == Plan(apps, opts.update)
  {
    var run := RunApps(apps, opts, c, map[]);
    CallsAppend([VerifyAction(ArgsFor(opts, map[]))], run.actions);
    RunAppsFollowsPlan(apps, opts, c, map[]);
  }

  /** When one app is named, only that app's phases run. */
  lemma {:induction false} SpecificAppOnly(registry: seq<App>, app: App, opts: Options, c: Collaborator)
    ensures Calls(Trace(Targets(registry, Some(app)), opts, c)) == Tag(Decide(app.appExists, opts.update), app.name)
    ensures var log := Trace(Targets(registry, Some(app)), opts, c);
      forall k :: 1 <= k < |log| ==> log[k].app == app.name
  {
    var phases := Decide(app.appExists, opts.update);
    var log := Trace([app], opts, c);
    var run := RunApps([app], opts, c, map[]);
    var first := RunPhases(app, phases, opts, c, map[]);
    assert [app][1..] == [];
    assert run.actions == first.actions + RunApps([], opts, c, first.state).actions;
    assert run.actions == first.actions;
    assert log == [VerifyAction(ArgsFor(opts, map[]))] + first.actions;
    forall k | 1 <= k < |log| ensures log[k].app == app.name {
      assert log[k] == first.actions[k - 1];
    }
    TraceFollowsPlan([app], opts, c);
    assert Plan([app], opts.update) == Tag(phases, app.name) + Plan([], opts.update);
  }

  /** Every app in the plan gets a build call. */
  lemma {:induction false} PlanBuildsEvery(apps: seq<App>, updateRequested: bool)
    ensures forall a :: a in apps ==> Call(Build, a.name) in Plan(apps, updateRequested)
    decreases |apps|
  {
    if apps != [] {
      var phases := Decide(apps[0].appExists, updateRequested);
      var tagged := Tag(phases, apps[0].name);
      PlanBuildsEvery(apps[1..], updateRequested);
      assert tagged[|phases| - 1] == Call(Build, apps[0].name);
      forall a | a in apps ensures Call(Build, a.name) in Plan(apps, updateRequested) {
        if a != apps[0] {
          assert a in apps[1..];
        }
      }
    }
  }

  /** With no app named, the run covers the whole registry: every
      registered app is built. */
  lemma EveryRegisteredAppBuilt(registry: seq<App>, opts: Options, c: Collaborator)
    ensures forall a :: a in registry ==>
      Call(Build, a.name) in Calls(Trace(Targets(registry, None), opts, c))
  {
    TraceFollowsPlan(registry, opts, c);
    PlanBuildsEvery(registry, opts.update);
  }

  // ---------------------------------------------------------------------
  // What every call sees

  /** The state after the calls of `log`, starting from `st`: each phase
      call's result (as collaborator `c` returns it) replaces its phase's
      entry; a verify record leaves the state as it is. */
  function Replay(st: State, log: seq<Action>, c: Collaborator): State
    decreases |log|
  {
    if log == [] then st
    else
      var before := Replay(st, log[..|log| - 1], c);
      match log[|log| - 1]
      case VerifyAction(_) => before
      case AppAction(p, app, kwargs) => before[p := c(p, app, kwargs)]
  }

  /** Every call in `log` received the options merged with the state left
      by all the calls before it. */
  ghost predicate Threaded(st: State, log: seq<Action>, opts: Options, c: Collaborator)
  {
    forall k :: 0 <= k < |log| ==> log[k].kwargs == ArgsFor(opts, Replay(st, log[..k], c))
  }

  lemma {:induction false} ReplayAppend(st: State, a: seq<Action>, b: seq<Action>, c: Collaborator)
    ensures Replay(st, a + b, c) == Replay(Replay(st, a, c), b, c)
    decreases |b|
  {
    if b == [] {
      assert a + b == a;
    } else {
      assert (a + b)[..|a + b| - 1] == a + b[..|b| - 1];
      ReplayAppend(st, a, b[..|b| - 1], c);
    }
  }

  lemma {:induction false} ThreadedAppend(st: State, a: seq<Action>, b: seq<Action>, opts: Options, c: Collaborator)
    requires Threaded(st, a, opts, c)
    requires Threaded(Replay(st, a, c), b, opts, c)
    ensures Threaded(st, a + b, opts, c)
  {
    forall k | 0 <= k < |a + b|
      ensures (a + b)[k].kwargs == ArgsFor(opts, Replay(st, (a + b)[..k], c))
    {
      if k < |a| {
        assert (a + b)[..k] == a[..k];
      } else {
        assert (a + b)[..k] == a + b[..k - |a|];
        ReplayAppend(st, a, b[..k - |a|], c);
      }
    }
  }

  lemma {:induction false} RunPhasesThreadsState(app: App, phases: seq<AppPhase>, opts: Options, c: Collaborator, st: State)
    ensures var r := RunPhases(app, phases, opts, c, st);
      r.state == Replay(st, r.actions, c) && Threaded(st, r.actions, opts, c)
    decreases |phases|
  {
    if phases != [] {
      var kwargs := ArgsFor(opts, st);
      var head := [AppAction(phases[0], app.name, kwargs)];
      var st1 := st[phases[0] := c(phases[0], app.name, kwargs)];
      var rest := RunPhases(app, phases[1..], opts, c, st1);
      assert Replay(st, head, c) == st1 by {
        assert head[..0] == [];
      }
      assert Threaded(st, head, opts, c) by {
        assert head[..0] == [];
      }
      RunPhasesThreadsState(app, phases[1..], opts, c, st1);
      ThreadedAppend(st, head, rest.actions, opts, c);
      ReplayAppend(st, head, rest.actions, c);
    }
  }

  lemma {:induction false} RunAppsThreadsState(apps: seq<App>, opts: Options, c: Collaborator, st: State)
    ensures var r := RunApps(apps, opts, c, st);
      r.state == Replay(st, r.actions, c) && Threaded(st, r.actions, opts, c)
    decreases |apps|
  {
    if apps != [] {
      var first := RunPhases(apps[0], Decide(apps[0].appExists, opts.update), opts, c, st);
      var rest := RunApps(apps[1..], opts, c, first.state);
      RunPhasesThreadsState(apps[0], Decide(apps[0].appExists, opts.update), opts, c, st);
      RunAppsThreadsState(apps[1..], opts, c, first.state);
      ThreadedAppend(st, first.actions, rest.actions, opts, c);
      ReplayAppend(st, first.actions, rest.actions, c);
    }
  }

  /** Every call of a run, verify included, receives the options plus the
      latest result of each phase that has run before it, whichever app it
      ran for. */
  lemma TraceThreadsState(apps: seq<App>, opts: Options, c: Collaborator)
    ensures Threaded(map[], Trace(apps, opts, c), opts, c)
  {
    var verify := [VerifyAction(ArgsFor(opts, map[]))];
    var run := RunApps(apps, opts, c, map[]);
    assert Threaded(map[], verify, opts, c) by {
      assert verify[..0] == [];
    }
    assert Replay(map[], verify, c) == map[] by {
      assert verify[..0] == [];
    }
    RunAppsThreadsState(apps, opts, c, map[]);
    ThreadedAppend(map[], verify, run.actions, opts, c);
  }

  /** The state after a log holds, for a phase that was called, exactly the
      result of its latest call: later calls of other phases leave it be. */
  lemma {:induction false} ReplayHoldsLatestResult(st: State, log: seq<Action>, c: Collaborator, k: nat, p: AppPhase)
    requires k < |log| && IsCallOf(log[k], p)
    requires forall j :: k < j < |log| ==> !IsCallOf(log[j], p)
    ensures p in Replay(st, log, c)
    ensures Replay(st, log, c)[p] == c(p, log[k].app, log[k].kwargs)
    decreases |log|
  {
    var init := log[..|log| - 1];
    if k < |log| - 1 {
      assert init[k] == log[k];
      forall j | k < j < |init| ensures !IsCallOf(init[j], p) {
        assert init[j] == log[j];
      }
      ReplayHoldsLatestResult(st, init, c, k, p);
      assert !IsCallOf(log[|log| - 1], p);
    }
  }

  /** Every call of a run receives, under `<p>_state`, the result of the
      latest call of phase `p` before it, whichever app that call was for. */
  lemma TraceSeesLatestResult(apps: seq<App>, opts: Options, c: Collaborator, i: nat, k: nat, p: AppPhase)
    requires var log := Trace(apps, opts, c);
      k < i < |log| && IsCallOf(log[k], p) && forall j :: k < j < i ==> !IsCallOf(log[j], p)
    ensures var log := Trace(apps, opts, c);
      StateOf(p) in log[i].kwargs
      && log[i].kwargs[StateOf(p)] == StrValue(c(p, log[k].app, log[k].kwargs))
  {
    var log := Trace(apps, opts, c);
    TraceThreadsState(apps, opts, c);
    var before := log[..i];
    assert before[k] == log[k];
    forall j | k < j < |before| ensures !IsCallOf(before[j], p) {
      assert before[j] == log[j];
    }
    ReplayHoldsLatestResult(map[], before, c, k, p);
    ArgsForContents(opts, Replay(map[], before, c));
  }

  /** For each phase that has run, the app it last ran for. */
  function LatestApps(log: seq<Action>): State
  {
    map p | LastCall(log, p).Some? :: LastCall(log, p).value
  }

  /** A phase call makes its app the latest for its phase and leaves the
      other phases' latest apps as they were; a verify record changes
      nothing. */
  lemma LatestAppsAfterCall(log: seq<Action>, a: Action)
    ensures LatestApps(log + [a])
      == if a.AppAction? then LatestApps(log)[a.phase := a.app] else LatestApps(log)
  {
    var after := log + [a];
    assert after[..|after| - 1] == log;
  }

  /** With the test fixtures' collaborators, the state after a log holds,
      for each phase, the name of the app that phase last ran for: a later
      call of a phase overwrites the earlier result, other phases keep
      theirs. */
  lemma {:induction false} EchoReplayIsLatest(log: seq<Action>)
    ensures Replay(map[], log, EchoName) == LatestApps(log)
    decreases |log|
  {
    if log != [] {
      var init := log[..|log| - 1];
      var last := log[|log| - 1];
      EchoReplayIsLatest(init);
      var before := Replay(map[], init, EchoName);
      forall p ensures LastCall(log, p) == if IsCallOf(last, p) then Some(last.app) else LastCall(init, p) {
      }
      var after, latest := Replay(map[], log, EchoName), LatestApps(log);
      assert after == if last.AppAction? then before[last.phase := last.app] else before;
      forall p ensures (p in after <==> p in latest) && (p in after ==> after[p] == latest[p]) {
        if IsCallOf(last, p) {
          assert after[p] == last.app;
        } else {
          assert LastCall(log, p) == LastCall(init, p);
        }
      }
    }
  }

  /** The traces of the tests, in general: with collaborators that return
      the app's name, every call receives the options plus, for each phase
      run so far, the name of the app it last ran for. */
  lemma EchoTraceThreadsLatestApps(apps: seq<App>, opts: Options)
    ensures var log := Trace(apps, opts, EchoName);
      forall k :: 0 <= k < |log| ==> log[k].kwargs == ArgsFor(opts, LatestApps(log[..k]))
  {
    var log := Trace(apps, opts, EchoName);
    TraceThreadsState(apps, opts, EchoName);
    forall k | 0 <= k < |log| ensures log[k].kwargs == ArgsFor(opts, LatestApps(log[..k])) {
      EchoReplayIsLatest(log[..k]);
    }
  }

  // ---------------------------------------------------------------------
  // The decision table, as calls

  /** The first phase call of a run carries the options only: no state. */
  lemma FirstPhaseCallHasNoState(apps: seq<App>, opts: Options, c: Collaborator)
    requires apps != []
    ensures var log := Trace(apps, opts, c);
      |log| > 1 && log[1].kwargs == ArgsFor(opts, map[])
      && log[1].kwargs.Keys == {InputEnabled, Verbosity}
  {
    var first := RunPhases(apps[0], Decide(apps[0].appExists, opts.update), opts, c, map[]);
    var rest := RunApps(apps[1..], opts, c, first.state);
    assert Trace(apps, opts, c) == [VerifyAction(ArgsFor(opts, map[]))] + first.actions + rest.actions;
  }

  /** An app that does not exist is created, then built, whether or not an
      update was requested; the build sees the create's result. */
  lemma MissingAppCreatedThenBuilt(app: App, opts: Options, c: Collaborator, st: State)
    requires !app.appExists
    ensures var created := st[Create := c(Create, app.name, ArgsFor(opts, st))];
      RunPhases(app, Decide(app.appExists, opts.update), opts, c, st)
      == Run([AppAction(Create, app.name, ArgsFor(opts, st)),
              AppAction(Build, app.name, ArgsFor(opts, created))],
             created[Build := c(Build, app.name, ArgsFor(opts, created))])
  {
    var created := st[Create := c(Create, app.name, ArgsFor(opts, st))];
    assert [Create, Build][1..] == [Build];
    assert [Build][1..] == [];
  }

  /** An existing app with no update requested is only built, whether or
      not it was built before. */
  lemma ExistingAppOnlyBuilt(app: App, opts: Options, c: Collaborator, st: State)
    requires app.appExists && !opts.update
    ensures RunPhases(app, Decide(app.appExists, opts.update), opts, c, st)
      == Run([AppAction(Build, app.name, ArgsFor(opts, st))],
             st[Build := c(Build, app.name, ArgsFor(opts, st))])
  {
    assert [Build][1..] == [];
  }

  /** An existing app with an update requested is updated, then built; the
      build sees the update's result. */
  lemma ExistingAppUpdatedThenBuilt(app: App, opts: Options, c: Collaborator, st: State)
    requires app.appExists && opts.update
    ensures var updated := st[Update := c(Update, app.name, ArgsFor(opts, st))];
      RunPhases(app, Decide(app.appExists, opts.update), opts, c, st)
      == Run([AppAction(Update, app.name, ArgsFor(opts, st)),
              AppAction(Build, app.name, ArgsFor(opts, updated))],
             updated[Build := c(Build, app.name, ArgsFor(opts, updated))])
  {
    var updated := st[Update := c(Update, app.name, ArgsFor(opts, st))];
    assert Decide(app.appExists, opts.update) == [Update, Build];
    assert [Update, Build][1..] == [Build];
    assert [Build][1..] == [];
    assert RunPhases(app, [Build], opts, c, updated)
      == Run([AppAction(Build, app.name, ArgsFor(opts, updated))],
             updated[Build := c(Build, app.name, ArgsFor(opts, updated))]);
  }
}
