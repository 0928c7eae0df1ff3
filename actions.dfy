/** The command's action log: one record per collaborator call, in call
    order, each with the keyword arguments the call received. */
module Actions {
  import opened Phases
  import opened PhaseState

  /** `('verify', kwargs)` or `(phase, app name, kwargs)`. */
  datatype Action =
    | VerifyAction(kwargs: Kwargs)
    | AppAction(phase: AppPhase, app: string, kwargs: Kwargs)

  /** A phase call stripped of its arguments: which phase, on which app. */
  datatype Call = Call(phase: AppPhase, app: string)

  /** The phase calls of a log, in order, with the verify records dropped. */
  function Calls(log: seq<Action>): (r: seq<Call>)
    ensures |r| <= |log|
  {
    if log == [] then []
    else
      match log[0]
      case VerifyAction(_) => Calls(log[1..])
      case AppAction(p, a, _) => [Call(p, a)] + Calls(log[1..])
  }

  lemma {:induction false} CallsAppend(a: seq<Action>, b: seq<Action>)
    ensures Calls(a + b) == Calls(a) + Calls(b)
  {
    if a != [] {
      assert (a + b)[1..] == a[1..] + b;
      CallsAppend(a[1..], b);
    } else {
      assert a + b == b;
    }
  }

  /** A log that holds only phase calls keeps its length under `Calls`. */
  lemma {:induction false} CallsOfPhaseLog(log: seq<Action>)
    requires forall k :: 0 <= k < |log| ==> log[k].AppAction?
    ensures |Calls(log)| == |log|
    ensures forall k :: 0 <= k < |log| ==> Calls(log)[k] == Call(log[k].phase, log[k].app)
  {
    if log != [] {
      CallsOfPhaseLog(log[1..]);
    }
  }

  datatype Option<T> = None | Some(value: T)

  /** Whether `a` is a call of phase `p`. */
  predicate IsCallOf(a: Action, p: AppPhase)
  {
    a.AppAction? && a.phase == p
  }

  /** The app that the latest call of phase `p` in `log` was made for, or
      `None` when `log` holds no call of `p`. */
  function LastCall(log: seq<Action>, p: AppPhase): (r: Option<string>)
    ensures r.None? <==> forall k :: 0 <= k < |log| ==> !IsCallOf(log[k], p)
    ensures r.Some? ==>
              exists k :: (0 <= k < |log| && IsCallOf(log[k], p) && log[k].app == r.value
                           && forall j :: k < j < |log| ==> !IsCallOf(log[j], p))
  {
    if log == [] then None
    else
      var last := log[|log| - 1];
      if IsCallOf(last, p) then Some(last.app)
      else LastCall(log[..|log| - 1], p)
  }
}
