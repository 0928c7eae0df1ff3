# Build-command phase sequencing, verified

A Dafny model of the phase-sequencing engine behind the `build` command of a
multi-app packaging CLI (briefcase). The behaviour is the one pinned down by
the seven tests in `tests/commands/build/test_call.py`.

- The command verifies its tools once, before it touches any app.
- It then takes the named app, or every registered app in registration
  order.
- For each app it decides which lifecycle phases run:
  - an app that does not exist yet: `create`, then `build`;
  - an existing app: only `build`;
  - an existing app with `-u`: `update`, then `build`.
- Every phase call receives the options (`input_enabled`, `verbosity`) plus a
  `<phase>_state` entry for each phase that has run so far in the
  invocation. The entry holds that phase's latest result.
- One state runs through all the apps. A newer result of a phase replaces
  the older one.

Modules, one per file:

- `Phases` (`phases.dfy`): the app phases, their state keys, and the
  decision table `Decide`.
- `Registry` (`registry.dfy`): app descriptors and invocation options.
- `PhaseState` (`phase_state.dfy`): the threaded state, and the keyword
  arguments `ArgsFor` each call receives.
- `Actions` (`actions.dfy`): the command's action log.
- `Sequencing` (`sequencing.dfy`): the run as pure functions (`RunPhases`,
  `RunApps`, `Trace`), with the ordering and state-threading theorems.
- `Command` (`build_command.dfy`): the command object. Its fields are
  updated in place by a loop over apps and an inner loop over phases, and
  it is proved to produce exactly `Trace`.
- `Scenarios` (`scenarios.dfy`): the seven tests' exact expected logs,
  proved of the command.

Collaborators are functions `(phase, app name, kwargs) -> result`. The
tests' fakes return the app's name; this is `Sequencing.EchoName`. The
general theorems hold for any collaborator.

## Model

| member | source | states |
|---|---|---|
| Phases.StateKeysDistinct | tests/commands/build/test_call.py:170-178 | the `create_state`, `update_state` and `build_state` keys are distinct per phase and never collide with `verbosity`, `input_enabled` or `update` |
| Phases.Decide | tests/commands/build/test_call.py:75-81 | the phase list ends in exactly one `build`; it holds `create` iff the app does not exist, and `update` iff the app exists and `-u` was given; at most two phases |
| Phases.DecideContractDeterminesTable | tests/commands/build/test_call.py:183-228 | any phase list meeting `Decide`'s contract is `Decide`'s list: the contract fixes the decision table exactly, including "no update for an app being created" |
| PhaseState.KeyNamesDistinct | tests/commands/build/test_call.py:137-151 | distinct keyword keys are spelled differently, and none is spelled `update`: the `-u` flag never reaches a collaborator |
| PhaseState.ArgsFor | tests/commands/build/test_call.py:170-178 | every call receives `input_enabled` and `verbosity` with the options' values, and a `<phase>_state` entry exactly for each phase in the state, holding that phase's result |
| PhaseState.ArgsForContents | tests/commands/build/test_call.py:163-178 | a call's keyword arguments are exactly `input_enabled`, `verbosity` and one `<phase>_state` per phase in the state, with the options' values and each phase's latest result |
| PhaseState.ArgsForEmptyState | tests/commands/build/test_call.py:18-21 | with no phase run yet, a call receives `input_enabled` and `verbosity` only |
| PhaseState.ArgsForUpdate | tests/commands/build/test_call.py:170-178 | recording a phase's result changes exactly that phase's `<phase>_state` argument of later calls, whether it was present before or not |
| PhaseState.ArgsForInjective | tests/commands/build/test_call.py:160-178 | two calls receive equal keyword arguments iff their verbosity, input flag and state agree: no state entry is lost in the arguments |
| Actions.LastCall | tests/commands/build/test_call.py:221-227 | `None` iff the log holds no call of the phase; otherwise the app of a call of that phase with no later call of it |
| Sequencing.RunPhases | tests/commands/build/test_call.py:147-157 | one record per phase, in the given order, each naming that phase and the app |
| Sequencing.RunApps | tests/commands/build/test_call.py:40-53 | every record of the app loop is a phase call on an app |
| Sequencing.RunPhasesStateKeys | tests/commands/build/test_call.py:83-93 | after running phases, the state's keys are the old keys plus the phases run; none is removed (a phase already present is overwritten, not added) |
| Sequencing.RunAppsStateKeys | tests/commands/build/test_call.py:47-51 | no state entry is ever removed across apps, and after any app a `build` result is present |
| Sequencing.Trace | tests/commands/build/test_call.py:16-22 | the log starts with exactly one verify record carrying only `input_enabled` and `verbosity`; every later record is a phase call |
| Sequencing.RunAppsFollowsPlan | tests/commands/build/test_call.py:143-180 | whatever the collaborators return, the app loop makes exactly the calls of `Plan`: each app in order, with the phases `Decide` picks for it |
| Sequencing.TraceFollowsPlan | tests/commands/build/test_call.py:25-53 | a whole run's phase calls are exactly `Plan`, so `first` is fully processed before `second` |
| Sequencing.PlanBuildsEvery | tests/commands/build/test_call.py:40-53 | the plan of a list of apps holds a `build` call for every app in it |
| Sequencing.EveryRegisteredAppBuilt | tests/commands/build/test_call.py:37-53 | with no app named, `Targets` selects the whole registry: every registered app gets a `build` call |
| Sequencing.SpecificAppOnly | tests/commands/build/test_call.py:1-22 | naming an app makes exactly that app's decided calls, and every record after verify names that app |
| Sequencing.RunPhasesThreadsState | tests/commands/build/test_call.py:147-157 | each phase call of an app receives the options merged with the state left by all calls before it, and the final state replays the calls |
| Sequencing.RunAppsThreadsState | tests/commands/build/test_call.py:210-227 | the same across apps: the state is carried from one app to the next, never reset |
| Sequencing.TraceThreadsState | tests/commands/build/test_call.py:160-178 | every call of a run, verify included, receives the options plus the latest result of each phase run before it, for any collaborators |
| Sequencing.ReplayHoldsLatestResult | tests/commands/build/test_call.py:170-178 | after a log, the state entry of a called phase is the result of that phase's latest call, whatever came after it |
| Sequencing.TraceSeesLatestResult | tests/commands/build/test_call.py:221-227 | for any collaborators, every call of a run receives under `<p>_state` the result of the latest `p` call before it, whichever app that was for |
| Sequencing.LatestAppsAfterCall | tests/commands/build/test_call.py:170-178 | a phase call makes its app the latest for its phase and leaves the other phases' latest apps unchanged; a verify record changes nothing |
| Sequencing.EchoReplayIsLatest | tests/commands/build/test_call.py:170-178 | with the tests' collaborators, the state after a log maps each phase to the app it last ran for: a later call overwrites, other phases keep theirs |
| Sequencing.EchoTraceThreadsLatestApps | tests/commands/build/test_call.py:221-227 | with the tests' collaborators, every call receives the options plus, for each phase run so far, the name of the app it last ran for |
| Sequencing.FirstPhaseCallHasNoState | tests/commands/build/test_call.py:44-45 | the first phase call of a run receives the options only, with no `*_state` key |
| Sequencing.MissingAppCreatedThenBuilt | tests/commands/build/test_call.py:75-81 | a missing app gets `create` then `build`, with or without `-u`, and the build sees the create's result |
| Sequencing.ExistingAppOnlyBuilt | tests/commands/build/test_call.py:116-124 | an existing app without `-u` gets only `build`, whether or not it was built before |
| Sequencing.ExistingAppUpdatedThenBuilt | tests/commands/build/test_call.py:147-157 | an existing app with `-u` gets `update` then `build`, and the build sees the update's result |
| Command.BuildCommand.Call | tests/commands/build/test_call.py:36-53 | the command appends exactly `Trace` of its selection to its log, leaves its registry alone and ends with the run's final state |
| Command.BuildCommand.BuildApp | tests/commands/build/test_call.py:147-157 | processing one app appends its decided phase calls and updates the state as `RunPhases` does |
| Scenarios.RunCommand | tests/commands/build/test_call.py:4-13 | a fresh command with the registry set and the tests' collaborators logs `Trace` of the selection |
| Scenarios.SpecificApp | tests/commands/build/test_call.py:1-22 | the exact log of the test: verify, then `build first` with no state |
| Scenarios.MultipleApps | tests/commands/build/test_call.py:25-53 | the exact log of the test: `build second` sees `build_state='first'` |
| Scenarios.NonExistent | tests/commands/build/test_call.py:56-94 | the exact log of the test: `create first`, `build first`, `build second` with both states |
| Scenarios.Unbuilt | tests/commands/build/test_call.py:97-125 | the exact log of the test: an unbuilt existing app is only built |
| Scenarios.UpdateApp | tests/commands/build/test_call.py:128-180 | the exact log of the test: `build second` sees `update_state='second'` (overwritten) and `build_state='first'` |
| Scenarios.UpdateNonExistent | tests/commands/build/test_call.py:183-228 | the exact log of the test: no update for the missing app; `create_state` is kept through `second`'s calls |
| Scenarios.UpdateUnbuilt | tests/commands/build/test_call.py:231-279 | the exact log of the test: an unbuilt existing app is updated, then built |

## Left out

- The command's source is not part of this model. The engine is modelled
  from the traces its tests assert, as those tests define it.
- Failure paths: a failing verify or phase that aborts the run, and an
  unknown app name (`AppNotFound`). No modelled test exercises them, so
  every collaborator here succeeds and the named app is given as a
  descriptor.
- A verify result is never merged into the state. No test shows a verify
  result, so the model merges none.
- Phase calls that produce no value. Every collaborator returns a string,
  and it is always stored.
- The collaborators receive the app's name, not the app object, and their
  platform work (scaffolding, compiling) is not modelled.
- Probing the filesystem for whether an app exists. The `appExists` flag
  is read from the descriptor.
- Parsing the command line. Options are a record; `DefaultOptions` and
  `UpdateOptions` are the parses of `[]` and `['-u']`.
- Logging and output formatting.
- Keyword-argument spelling. Keys are the datatype `PhaseState.Key`, and
  `PhaseState.KeyName` gives their Python names. Python compares dicts
  regardless of key order, and so does a Dafny map.
- The registry is an ordered sequence. The Python dict keyed by name is not
  modelled as such, and uniqueness of names is not enforced. The tests use
  `first` and `second`, which registration order and name order both put
  first, so the two orders are not told apart here; registration order is
  modelled.
