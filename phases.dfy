/** The lifecycle phases the build command can run for one app, and the
    decision table that picks them. */
module Phases {

  /** A per-app lifecycle phase. The run-wide `verify` step is not an app
      phase: it is recorded separately (see `Actions.VerifyAction`). */
  datatype AppPhase = Create | Update | Build

  /** The phase's name as it appears in the action log. */
  function Name(p: AppPhase): string
  {
    match p
    case Create => "create"
    case Update => "update"
    case Build => "build"
  }

  /** The keyword under which the latest result of phase `p` is passed on
      to later phase calls: `<phase>_state`. */
  function StateKey(p: AppPhase): (k: string)
    ensures k == Name(p) + "_state"
  {
    match p
    case Create => "create_state"
    case Update => "update_state"
    case Build => "build_state"
  }

  /** Different phases never share a state key, and no state key collides
      with an option keyword. */
  lemma StateKeysDistinct(p: AppPhase, q: AppPhase)
    ensures StateKey(p) == StateKey(q) <==> p == q
    ensures StateKey(p) != "verbosity" && StateKey(p) != "input_enabled" && StateKey(p) != "update"
  {
  }

  /** The phases to run for one app, in order, given whether the app
      already exists and whether an update was requested (`-u`). Whether the
      app was built before plays no part. */
  function Decide(appExists: bool, updateRequested: bool): (r: seq<AppPhase>)
    // a build always runs, exactly once, as the last phase
    ensures |r| > 0 && r[|r| - 1] == Build
    ensures forall k :: 0 <= k < |r| - 1 ==> r[k] != Build
    // a missing app is created; an existing one is updated only on request
    ensures Create in r <==> !appExists
    ensures Update in r <==> appExists && updateRequested
    ensures |r| <= 2
  {
    if !appExists then [Create, Build]
    else if updateRequested then [Update, Build]
    else [Build]
  }

  /** The contract of `Decide` pins down the whole table: any phase list
      meeting it is one of the three rows. */
  lemma {:induction false} DecideContractDeterminesTable(appExists: bool, updateRequested: bool, r: seq<AppPhase>)
    requires |r| > 0 && r[|r| - 1] == Build
    requires forall k :: 0 <= k < |r| - 1 ==> r[k] != Build
    requires Create in r <==> !appExists
    requires Update in r <==> appExists && updateRequested
    requires |r| <= 2
    ensures r == Decide(appExists, updateRequested)
  {
    if |r| == 2 {
      // the phase before the build is a create or an update, so the app is
      // missing, or present with an update requested
      assert r[0] in r && r[0] != Build;
    }
  }
}
