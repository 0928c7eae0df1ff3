/** The state threaded through a run, and the keyword arguments every phase
    call receives: the options merged with that state. */
module PhaseState {
  import opened Phases
  import opened Registry

  /** Latest result of each app phase that has run so far in this run; at
      most one entry per phase, a newer result replaces the older one. */
  type State = map<AppPhase, string>

  /** A keyword of a collaborator call. The command passes on two options
      and one `<phase>_state` entry per phase that has run; `KeyName` gives
      the keyword's spelling. */
  datatype Key = InputEnabled | Verbosity | StateOf(phase: AppPhase)

  function KeyName(k: Key): string
  {
    match k
    case InputEnabled => "input_enabled"
    case Verbosity => "verbosity"
    case StateOf(p) => StateKey(p)
  }

  /** Distinct keys are spelled differently, and none is spelled `update`:
      the update flag is consumed by the command and never passed on. */
  lemma KeyNamesDistinct(k1: Key, k2: Key)
    ensures KeyName(k1) == KeyName(k2) <==> k1 == k2
    ensures KeyName(k1) != "update"
  {
    if k1.StateOf? && k2.StateOf? {
      StateKeysDistinct(k1.phase, k2.phase);
    }
  }

  /** A keyword-argument value. */
  datatype Value = IntValue(i: int) | BoolValue(b: bool) | StrValue(s: string)

  type Kwargs = map<Key, Value>

  /** The keyword arguments of a call made while the state is `st`: the
      options merged with the state entries. */
  function ArgsFor(opts: Options, st: State): (r: Kwargs)
    // the two options are always passed on, with their values
    ensures InputEnabled in r && r[InputEnabled] == BoolValue(opts.inputEnabled)
    ensures Verbosity in r && r[Verbosity] == IntValue(opts.verbosity)
    // one `<phase>_state` entry per phase in the state, holding its result
    ensures forall p :: StateOf(p) in r <==> p in st
    ensures forall p :: p in st ==> r[StateOf(p)] == StrValue(st[p])
  {
    var args := map[InputEnabled := BoolValue(opts.inputEnabled), Verbosity := IntValue(opts.verbosity)];
    var args := if Create in st then args[StateOf(Create) := StrValue(st[Create])] else args;
    var args := if Update in st then args[StateOf(Update) := StrValue(st[Update])] else args;
    assert forall p: AppPhase {:trigger StateOf(p)} :: p.Create? || p.Update? || p.Build?;
    if Build in st then args[StateOf(Build) := StrValue(st[Build])] else args
  }

  /** A call's keyword arguments are the input flag and the verbosity, plus
      one `<phase>_state` entry per phase in the state, holding that phase's
      latest result. */
  lemma ArgsForContents(opts: Options, st: State)
    ensures var r := ArgsFor(opts, st);
      && r.Keys == {InputEnabled, Verbosity} + (set p | p in st :: StateOf(p))
      && r[InputEnabled] == BoolValue(opts.inputEnabled)
      && r[Verbosity] == IntValue(opts.verbosity)
      && (forall p :: p in st ==> r[StateOf(p)] == StrValue(st[p]))
  {
    var r := ArgsFor(opts, st);
    forall p ensures (StateOf(p) in r <==> p in st) && (p in st ==> r[StateOf(p)] == StrValue(st[p])) {
      match p
      case Create =>
      case Update =>
      case Build =>
    }
    forall k | k in r ensures k in {InputEnabled, Verbosity} + (set p | p in st :: StateOf(p)) {
      if k.StateOf? {
        assert k.phase in st;
      }
    }
  }

  /** A call made before any phase has run gets the options alone. */
  lemma ArgsForEmptyState(opts: Options)
    ensures ArgsFor(opts, map[])
      == map[InputEnabled := BoolValue(opts.inputEnabled), Verbosity := IntValue(opts.verbosity)]
  {
  }

  /** Recording a result for phase `p` changes exactly one keyword argument
      of later calls: `<p>_state`, whether it was there before or not. */
  lemma ArgsForUpdate(opts: Options, st: State, p: AppPhase, v: string)
    ensures ArgsFor(opts, st[p := v]) == ArgsFor(opts, st)[StateOf(p) := StrValue(v)]
  {
  }

  /** Two calls get the same keyword arguments exactly when their options
      (apart from the update flag) and their states agree: the arguments
      lose nothing of the state. */
  lemma {:induction false} ArgsForInjective(o1: Options, s1: State, o2: Options, s2: State)
    ensures ArgsFor(o1, s1) == ArgsFor(o2, s2) <==>
      o1.verbosity == o2.verbosity && o1.inputEnabled == o2.inputEnabled && s1 == s2
  {
    var a1, a2 := ArgsFor(o1, s1), ArgsFor(o2, s2);
    ArgsForContents(o1, s1);
    ArgsForContents(o2, s2);
    if a1 == a2 {
      assert a1[Verbosity] == IntValue(o1.verbosity);
      assert a1[InputEnabled] == BoolValue(o1.inputEnabled);
      forall p ensures p in s1 <==> p in s2 {
        assert p in s1 <==> StateOf(p) in a1;
        assert p in s2 <==> StateOf(p) in a2;
      }
      forall p | p in s1 ensures s1[p] == s2[p] {
        assert a1[StateOf(p)] == StrValue(s1[p]);
      }
    }
  }
}
