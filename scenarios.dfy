/** The recorded call traces of the build command's tests, reproduced on
    the model: each method sets up the command as its test does, runs it
    with collaborators that return the app's name, and returns the log. */
module Scenarios {
  import opened Phases
  import opened Registry
  import opened PhaseState
  import opened Actions
  import opened Sequencing
  import opened Command

  /** An app that exists and has been built. */
  const FirstApp := App("first", true, true)
  /** The same app with only its configuration: no scaffold yet. */
  const FirstAppConfig := App("first", false, false)
  /** The same app, created but never built. */
  const FirstAppUnbuilt := App("first", true, false)
  const SecondApp := App("second", true, true)

  /** The keyword arguments every call of the tests receives from the
      default options: input enabled, verbosity 1. */
  const Base: Kwargs := map[InputEnabled := BoolValue(true), Verbosity := IntValue(1)]

  /** Runs a fresh command holding `registry` and returns its log. */
  method RunCommand(registry: seq<App>, app: Option<App>, opts: Options) returns (log: seq<Action>)
    ensures log == Trace(Targets(registry, app), opts, EchoName)
  {
    var command := new BuildCommand();
    command.apps := registry;
    command.Call(app, opts, EchoName);
    log := command.actions;
  }

  /** Naming one app builds that app only. */
  method SpecificApp() returns (log: seq<Action>)
    ensures log == [
      VerifyAction(Base),
      AppAction(Build, "first", Base)
    ]
  {
    log := RunCommand([FirstApp, SecondApp], Some(FirstApp), DefaultOptions);
    var opts := DefaultOptions;
    assert [FirstApp][1..] == [];
    ExistingAppOnlyBuilt(FirstApp, opts, EchoName, map[]);
    assert RunApps([FirstApp], opts, EchoName, map[]).actions ==
      [AppAction(Build, "first", ArgsFor(opts, map[]))] + [];
    assert log == [VerifyAction(ArgsFor(opts, map[]))] + [AppAction(Build, "first", ArgsFor(opts, map[]))];
    ArgsForEmptyState(opts);
    assert log == [VerifyAction(ArgsFor(opts, map[])),
                   AppAction(Build, "first", ArgsFor(opts, map[]))];
  }

  /** With no app named, every app is built, in registration order. */
  method MultipleApps() returns (log: seq<Action>)
    ensures log == [
      VerifyAction(Base),
      AppAction(Build, "first", Base),
      AppAction(Build, "second",
        Base[StateOf(Build) := StrValue("first")])
    ]
  {
    log := RunCommand([FirstApp, SecondApp], None, DefaultOptions);
    var opts := DefaultOptions;
    var st1 := map[][Build := "first"];
    ArgsForUpdate(opts, map[], Build, "first");
    TwoApps(FirstApp, SecondApp, opts, EchoName);
    ExistingAppOnlyBuilt(FirstApp, opts, EchoName, map[]);
    ExistingAppOnlyBuilt(SecondApp, opts, EchoName, st1);
    ArgsForEmptyState(opts);
    assert ArgsFor(opts, st1) == Base[StateOf(Build) := StrValue("first")];
    assert log == [VerifyAction(ArgsFor(opts, map[])),
                   AppAction(Build, "first", ArgsFor(opts, map[])),
                   AppAction(Build, "second", ArgsFor(opts, st1))];
  }

  /** An app that does not exist is created, then built. */
  method NonExistent() returns (log: seq<Action>)
    ensures log == [
      VerifyAction(Base),
      AppAction(Create, "first", Base),
      AppAction(Build, "first",
        Base[StateOf(Create) := StrValue("first")]),
      AppAction(Build, "second",
        Base[StateOf(Create) := StrValue("first")][StateOf(Build) := StrValue("first")])
    ]
  {
    log := RunCommand([FirstAppConfig, SecondApp], None, DefaultOptions);
    var opts := DefaultOptions;
    var st1 := map[][Create := "first"];
    ArgsForUpdate(opts, map[], Create, "first");
    var st2 := st1[Build := "first"];
    ArgsForUpdate(opts, st1, Build, "first");
    TwoApps(FirstAppConfig, SecondApp, opts, EchoName);
    MissingAppCreatedThenBuilt(FirstAppConfig, opts, EchoName, map[]);
    ExistingAppOnlyBuilt(SecondApp, opts, EchoName, st2);
    ArgsForEmptyState(opts);
    assert ArgsFor(opts, st1) == Base[StateOf(Create) := StrValue("first")];
    assert ArgsFor(opts, st2) ==
      Base[StateOf(Create) := StrValue("first")][StateOf(Build) := StrValue("first")];
    assert log == [VerifyAction(ArgsFor(opts, map[])),
                   AppAction(Create, "first", ArgsFor(opts, map[])),
                   AppAction(Build, "first", ArgsFor(opts, st1)),
                   AppAction(Build, "second", ArgsFor(opts, st2))];
  }

  /** An app created but never built is just built. */
  method Unbuilt() returns (log: seq<Action>)
    ensures log == [
      VerifyAction(Base),
      AppAction(Build, "first", Base),
      AppAction(Build, "second",
        Base[StateOf(Build) := StrValue("first")])
    ]
  {
    log := RunCommand([FirstAppUnbuilt, SecondApp], None, DefaultOptions);
    var opts := DefaultOptions;
    var st1 := map[][Build := "first"];
    ArgsForUpdate(opts, map[], Build, "first");
    TwoApps(FirstAppUnbuilt, SecondApp, opts, EchoName);
    ExistingAppOnlyBuilt(FirstAppUnbuilt, opts, EchoName, map[]);
    ExistingAppOnlyBuilt(SecondApp, opts, EchoName, st1);
    ArgsForEmptyState(opts);
    assert ArgsFor(opts, st1) == Base[StateOf(Build) := StrValue("first")];
    assert log == [VerifyAction(ArgsFor(opts, map[])),
                   AppAction(Build, "first", ArgsFor(opts, map[])),
                   AppAction(Build, "second", ArgsFor(opts, st1))];
  }

  /** With `-u`, each existing app is updated, then built. */
  method UpdateApp() returns (log: seq<Action>)
    ensures log == [
      VerifyAction(Base),
      AppAction(Update, "first", Base),
      AppAction(Build, "first",
        Base[StateOf(Update) := StrValue("first")]),
      AppAction(Update, "second",
        Base[StateOf(Update) := StrValue("first")][StateOf(Build) := StrValue("first")]),
      AppAction(Build, "second",
        Base[StateOf(Update) := StrValue("second")][StateOf(Build) := StrValue("first")])
    ]
  {
    log := RunCommand([FirstApp, SecondApp], None, UpdateOptions);
    var opts := UpdateOptions;
    var st1 := map[][Update := "first"];
    ArgsForUpdate(opts, map[], Update, "first");
    var st2 := st1[Build := "first"];
    ArgsForUpdate(opts, st1, Build, "first");
    var st3 := st2[Update := "second"];
    ArgsForUpdate(opts, st2, Update, "second");
    TwoApps(FirstApp, SecondApp, opts, EchoName);
    ExistingAppUpdatedThenBuilt(FirstApp, opts, EchoName, map[]);
    ExistingAppUpdatedThenBuilt(SecondApp, opts, EchoName, st2);
    ArgsForEmptyState(opts);
    assert ArgsFor(opts, st1) == Base[StateOf(Update) := StrValue("first")];
    assert ArgsFor(opts, st2) ==
      Base[StateOf(Update) := StrValue("first")][StateOf(Build) := StrValue("first")];
    assert ArgsFor(opts, st3) ==
      Base[StateOf(Update) := StrValue("second")][StateOf(Build) := StrValue("first")];
    assert log == [VerifyAction(ArgsFor(opts, map[])),
                   AppAction(Update, "first", ArgsFor(opts, map[])),
                   AppAction(Build, "first", ArgsFor(opts, st1)),
                   AppAction(Update, "second", ArgsFor(opts, st2)),
                   AppAction(Build, "second", ArgsFor(opts, st3))];
  }

  /** With `-u`, an app that does not exist is still only created, then built. */
  method UpdateNonExistent() returns (log: seq<Action>)
    ensures log == [
      VerifyAction(Base),
      AppAction(Create, "first", Base),
      AppAction(Build, "first",
        Base[StateOf(Create) := StrValue("first")]),
      AppAction(Update, "second",
        Base[StateOf(Create) := StrValue("first")][StateOf(Build) := StrValue("first")]),
      AppAction(Build, "second",
        Base[StateOf(Create) := StrValue("first")][StateOf(Build) := StrValue("first")]
          [StateOf(Update) := StrValue("second")])
    ]
  {
    log := RunCommand([FirstAppConfig, SecondApp], None, UpdateOptions);
    var opts := UpdateOptions;
    var st1 := map[][Create := "first"];
    ArgsForUpdate(opts, map[], Create, "first");
    var st2 := st1[Build := "first"];
    ArgsForUpdate(opts, st1, Build, "first");
    var st3 := st2[Update := "second"];
    ArgsForUpdate(opts, st2, Update, "second");
    TwoApps(FirstAppConfig, SecondApp, opts, EchoName);
    MissingAppCreatedThenBuilt(FirstAppConfig, opts, EchoName, map[]);
    ExistingAppUpdatedThenBuilt(SecondApp, opts, EchoName, st2);
    ArgsForEmptyState(opts);
    assert ArgsFor(opts, st1) == Base[StateOf(Create) := StrValue("first")];
    assert ArgsFor(opts, st2) ==
      Base[StateOf(Create) := StrValue("first")][StateOf(Build) := StrValue("first")];
    assert ArgsFor(opts, st3) ==
      Base[StateOf(Create) := StrValue("first")][StateOf(Build) := StrValue("first")][StateOf(Update) := StrValue("second")];
    assert log == [VerifyAction(ArgsFor(opts, map[])),
                   AppAction(Create, "first", ArgsFor(opts, map[])),
                   AppAction(Build, "first", ArgsFor(opts, st1)),
                   AppAction(Update, "second", ArgsFor(opts, st2)),
                   AppAction(Build, "second", ArgsFor(opts, st3))];
  }

  /** With `-u`, an app created but never built is updated, then built. */
  method UpdateUnbuilt() returns (log: seq<Action>)
    ensures log == [
      VerifyAction(Base),
      AppAction(Update, "first", Base),
      AppAction(Build, "first",
        Base[StateOf(Update) := StrValue("first")]),
      AppAction(Update, "second",
        Base[StateOf(Update) := StrValue("first")][StateOf(Build) := StrValue("first")]),
      AppAction(Build, "second",
        Base[StateOf(Update) := StrValue("second")][StateOf(Build) := StrValue("first")])
    ]
  {
    log := RunCommand([FirstAppUnbuilt, SecondApp], None, UpdateOptions);
    var opts := UpdateOptions;
    var st1 := map[][Update := "first"];
    ArgsForUpdate(opts, map[], Update, "first");
    var st2 := st1[Build := "first"];
    ArgsForUpdate(opts, st1, Build, "first");
    var st3 := st2[Update := "second"];
    ArgsForUpdate(opts, st2, Update, "second");
    TwoApps(FirstAppUnbuilt, SecondApp, opts, EchoName);
    ExistingAppUpdatedThenBuilt(FirstAppUnbuilt, opts, EchoName, map[]);
    ExistingAppUpdatedThenBuilt(SecondApp, opts, EchoName, st2);
    ArgsForEmptyState(opts);
    assert ArgsFor(opts, st1) == Base[StateOf(Update) := StrValue("first")];
    assert ArgsFor(opts, st2) ==
      Base[StateOf(Update) := StrValue("first")][StateOf(Build) := StrValue("first")];
    assert ArgsFor(opts, st3) ==
      Base[StateOf(Update) := StrValue("second")][StateOf(Build) := StrValue("first")];
    assert log == [VerifyAction(ArgsFor(opts, map[])),
                   AppAction(Update, "first", ArgsFor(opts, map[])),
                   AppAction(Build, "first", ArgsFor(opts, st1)),
                   AppAction(Update, "second", ArgsFor(opts, st2)),
                   AppAction(Build, "second", ArgsFor(opts, st3))];
  }

  /** Two apps run one after the other, the second from the first's state. */
  lemma TwoApps(a: App, b: App, opts: Options, c: Collaborator)
    ensures var first := RunPhases(a, Decide(a.appExists, opts.update), opts, c, map[]);
      var second := RunPhases(b, Decide(b.appExists, opts.update), opts, c, first.state);
      Trace([a, b], opts, c) == [VerifyAction(ArgsFor(opts, map[]))] + (first.actions + second.actions)
  {
    var first := RunPhases(a, Decide(a.appExists, opts.update), opts, c, map[]);
    var second := RunPhases(b, Decide(b.appExists, opts.update), opts, c, first.state);
    assert [a, b][1..] == [b];
    assert [b][1..] == [];
    assert RunApps([b], opts, c, first.state).actions == second.actions + [];
    assert second.actions + [] == second.actions;
    assert RunApps([a, b], opts, c, map[]).actions == first.actions + second.actions;
  }
}
