/** The build command as an object: the registry of apps it knows, the log
    of collaborator calls it has made, and the phase state of the current
    run. */
module Command {
  import opened Phases
  import opened Registry
  import opened PhaseState
  import opened Actions
  import opened Sequencing

  class BuildCommand {
    /** The registered apps, in registration order. */
    var apps: seq<App>
    /** Every collaborator call made so far, in call order. */
    var actions: seq<Action>
    /** Latest result of each phase in the current run. */
    var state: State

    constructor ()
      ensures apps == [] && actions == [] && state == map[]
    {
      apps := [];
      actions := [];
      state := map[];
    }

    /** Runs the command: verifies the tools, then processes the named app,
        or every registered app in order, running the phases `Decide` picks
        for each and threading every result into all later calls. */
    method Call(app: Option<App>, opts: Options, c: Collaborator)
      modifies this`actions, this`state
      ensures apps == old(apps)
      ensures actions == old(actions) + Trace(Targets(old(apps), app), opts, c)
      ensures state == RunApps(Targets(old(apps), app), opts, c, map[]).state
    {
      var targets := Targets(apps, app);
      ghost var total := old(actions) + Trace(targets, opts, c);
      ghost var final := RunApps(targets, opts, c, map[]).state;

      // the state belongs to this run alone
      state := map[];
      actions := actions + [VerifyAction(ArgsFor(opts, state))];
      Regroup(old(actions), [VerifyAction(ArgsFor(opts, map[]))], RunApps(targets, opts, c, map[]).actions);
      assert targets[0..] == targets;

      var i := 0;
      while i < |targets|
        invariant 0 <= i <= |targets|
        invariant var rest := RunApps(targets[i..], opts, c, state);
          actions + rest.actions == total && rest.state == final
      {
        AppStep(targets, i, opts, c, state, actions, total);
        BuildApp(targets[i], opts, c);
        i := i + 1;
      }
      assert targets[i..] == [];
    }

    /** Processes one app: runs the phases `Decide` picks for it, in order,
        each call getting the options merged with the current state and its
        result replacing the state entry of its phase. */
    method BuildApp(app: App, opts: Options, c: Collaborator)
      modifies this`actions, this`state
      ensures apps == old(apps)
      ensures var r := RunPhases(app, Decide(app.appExists, opts.update), opts, c, old(state));
        actions == old(actions) + r.actions && state == r.state
    {
      var phases := Decide(app.appExists, opts.update);
      ghost var run := RunPhases(app, phases, opts, c, state);
      ghost var total := old(actions) + run.actions;
      assert phases[0..] == phases;
      var j := 0;
      while j < |phases|
        invariant 0 <= j <= |phases|
        invariant var rest := RunPhases(app, phases[j..], opts, c, state);
          actions + rest.actions == total && rest.state == run.state
      {
        var kwargs := ArgsFor(opts, state);
        PhaseStep(app, phases, j, opts, c, state, actions, total);
        actions := actions + [AppAction(phases[j], app.name, kwargs)];
        state := state[phases[j] := c(phases[j], app.name, kwargs)];
        j := j + 1;
      }
      assert phases[j..] == [];
      assert actions + [] == actions;
    }
  }

  /** Bookkeeping for one turn of the phase loop: calling phase `j` moves
      its record from the pending part of the trace to the recorded part. */
  lemma PhaseStep(app: App, phases: seq<AppPhase>, j: nat, opts: Options, c: Collaborator, st: State,
                  done: seq<Action>, total: seq<Action>)
    requires j < |phases|
    requires done + RunPhases(app, phases[j..], opts, c, st).actions == total
    ensures var kwargs := ArgsFor(opts, st);
      var next := st[phases[j] := c(phases[j], app.name, kwargs)];
      && (done + [AppAction(phases[j], app.name, kwargs)]) + RunPhases(app, phases[j + 1..], opts, c, next).actions == total
      && RunPhases(app, phases[j + 1..], opts, c, next).state == RunPhases(app, phases[j..], opts, c, st).state
  {
    var kwargs := ArgsFor(opts, st);
    var next := st[phases[j] := c(phases[j], app.name, kwargs)];
    RunPhasesStep(app, phases, j, opts, c, st);
    Regroup(done, [AppAction(phases[j], app.name, kwargs)], RunPhases(app, phases[j + 1..], opts, c, next).actions);
  }

  /** One step of `RunPhases`: the first pending phase is called with the
      current state, and the rest run from the state it leaves. */
  lemma RunPhasesStep(app: App, phases: seq<AppPhase>, j: nat, opts: Options, c: Collaborator, st: State)
    requires j < |phases|
    ensures var kwargs := ArgsFor(opts, st);
      var rest := RunPhases(app, phases[j + 1..], opts, c, st[phases[j] := c(phases[j], app.name, kwargs)]);
      RunPhases(app, phases[j..], opts, c, st) == Run([AppAction(phases[j], app.name, kwargs)] + rest.actions, rest.state)
  {
    assert phases[j..][1..] == phases[j + 1..];
  }

  /** One step of `RunApps`: the next app's phases run, then the later
      apps run from the state they leave. */
  lemma RunAppsStep(apps: seq<App>, i: nat, opts: Options, c: Collaborator, st: State)
    requires i < |apps|
    ensures var first := RunPhases(apps[i], Decide(apps[i].appExists, opts.update), opts, c, st);
      var rest := RunApps(apps[i + 1..], opts, c, first.state);
      RunApps(apps[i..], opts, c, st) == Run(first.actions + rest.actions, rest.state)
  {
    assert apps[i..][1..] == apps[i + 1..];
  }

  /** Bookkeeping for one turn of the app loop: processing app `i` moves its
      calls from the pending part of the trace to the recorded part. */
  lemma AppStep(apps: seq<App>, i: nat, opts: Options, c: Collaborator, st: State,
                done: seq<Action>, total: seq<Action>)
    requires i < |apps|
    requires done + RunApps(apps[i..], opts, c, st).actions == total
    ensures var first := RunPhases(apps[i], Decide(apps[i].appExists, opts.update), opts, c, st);
      && done + first.actions + RunApps(apps[i + 1..], opts, c, first.state).actions == total
      && RunApps(apps[i + 1..], opts, c, first.state).state == RunApps(apps[i..], opts, c, st).state
  {
    var first := RunPhases(apps[i], Decide(apps[i].appExists, opts.update), opts, c, st);
    RunAppsStep(apps, i, opts, c, st);
    Regroup(done, first.actions, RunApps(apps[i + 1..], opts, c, first.state).actions);
  }

  lemma Regroup<T>(a: seq<T>, b: seq<T>, c: seq<T>)
    ensures a + (b + c) == (a + b) + c
  {
  }
}
