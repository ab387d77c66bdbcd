/** The hysteresis transition engine, threshold validation and the environment
    regulator helpers (sandboxtown_v2/core/stability_rules.py). */
module StabilityRules {
  import opened Results
  import opened Agents

  /** Every tag the engine can emit. There is deliberately no LOADED tag. */
  datatype TransitionEvent =
    | EnterHelp | ExitHelp | EnterRest | ExitRest | RecoveredToStable
    | EnvDownshift | EnvUpshift

  /** The next status together with the events of one transition. */
  datatype TransitionResult = TransitionResult(nextStatus: AgentStatus, events: seq<TransitionEvent>) {

    /** The first event, or `None` when nothing fired. */
    function Event(): (e: Option<TransitionEvent>)
      ensures e.None? <==> events == []
      ensures e.Some? ==> e.value in events && e.value == events[0]
    {
      if |events| == 0 then None else Some(events[0])
    }
  }

  // ---------------------------------------------------------------------
  // Thresholds
  // ---------------------------------------------------------------------

  /** The five cut-points of the hysteresis bands. */
  datatype Thresholds = Thresholds(
    helpEnter: real,
    helpExit: real,
    restEnter: real,
    restExit: real,
    visualMinStable: real)
  {
    /** HELP is switched off by setting both help cut-points below zero. */
    predicate HelpDisabled() {
      helpEnter < 0.0 && helpExit < 0.0
    }

    /** The invariants every constructed `Thresholds` satisfies. */
    ghost predicate Valid() {
      && InUnit(visualMinStable)
      && InUnit(restEnter) && InUnit(restExit) && restEnter < restExit
      && (HelpDisabled() || (InUnit(helpEnter) && InUnit(helpExit) && helpEnter < helpExit))
    }
  }

  ghost predicate InUnit(x: real) {
    0.0 <= x <= 1.0
  }

  /** A constructor argument before validation: a number, or some other Python value. */
  datatype ThresholdInput = Number(value: real) | NonNumeric

  /** The five constructor arguments, by keyword. */
  datatype RawThresholds = RawThresholds(
    helpEnter: ThresholdInput,
    helpExit: ThresholdInput,
    restEnter: ThresholdInput,
    restExit: ThresholdInput,
    visualMinStable: ThresholdInput)
  {
    function Get(f: ThresholdField): ThresholdInput {
      match f
      case HelpEnterField => helpEnter
      case HelpExitField => helpExit
      case RestEnterField => restEnter
      case RestExitField => restExit
      case VisualMinStableField => visualMinStable
    }

    predicate AllNumeric() {
      helpEnter.Number? && helpExit.Number? && restEnter.Number? && restExit.Number?
      && visualMinStable.Number?
    }

    function Values(): Thresholds
      requires AllNumeric()
    {
      Thresholds(helpEnter.value, helpExit.value, restEnter.value, restExit.value, visualMinStable.value)
    }
  }

  /** The fields, in the order the constructor checks them. */
  datatype ThresholdField = HelpEnterField | HelpExitField | RestEnterField | RestExitField | VisualMinStableField {
    function Position(): nat {
      match this
      case HelpEnterField => 0
      case HelpExitField => 1
      case RestEnterField => 2
      case RestExitField => 3
      case VisualMinStableField => 4
    }
  }

  /** Why a value was refused: the ValueError messages of the constructor. */
  datatype ValueReason = VisualOutOfRange | ValueOutOfRange | RestNotOrdered | HelpNotOrdered

  /** TypeError names the first non-numeric field; ValueError carries a reason. */
  datatype ThresholdError = TypeError(field: ThresholdField) | ValueError(reason: ValueReason)

  /** Validating constructor (`Thresholds.__post_init__`). */
  function MakeThresholds(raw: RawThresholds): (r: Result<Thresholds, ThresholdError>)
    // accepted exactly when every field is a number and the invariants hold
    ensures r.Ok? <==> raw.AllNumeric() && raw.Values().Valid()
    ensures r.Ok? ==> r.value == raw.Values()
    // the type check runs before every range or order check
    ensures !raw.AllNumeric() <==> r.Err? && r.error.TypeError?
    ensures r.Err? && r.error.TypeError? ==>
              && raw.Get(r.error.field).NonNumeric?
              && forall f: ThresholdField :: f.Position() < r.error.field.Position() ==> raw.Get(f).Number?
    // the visual floor is checked first among the values
    ensures raw.AllNumeric() && !InUnit(raw.visualMinStable.value) ==> r == Err(ValueError(VisualOutOfRange))
    ensures r == Err(ValueError(HelpNotOrdered)) ==> !raw.Values().HelpDisabled()
  {
    if raw.helpEnter.NonNumeric? then Err(TypeError(HelpEnterField))
    else if raw.helpExit.NonNumeric? then Err(TypeError(HelpExitField))
    else if raw.restEnter.NonNumeric? then Err(TypeError(RestEnterField))
    else if raw.restExit.NonNumeric? then Err(TypeError(RestExitField))
    else if raw.visualMinStable.NonNumeric? then Err(TypeError(VisualMinStableField))
    else
      var t := raw.Values();
      if !(0.0 <= t.visualMinStable <= 1.0) then Err(ValueError(VisualOutOfRange))
      else if !(0.0 <= t.restEnter <= 1.0 && 0.0 <= t.restExit <= 1.0) then Err(ValueError(ValueOutOfRange))
      else if !(t.restEnter < t.restExit) then Err(ValueError(RestNotOrdered))
      else if !t.HelpDisabled() && !(0.0 <= t.helpEnter <= 1.0 && 0.0 <= t.helpExit <= 1.0) then
        Err(ValueError(ValueOutOfRange))
      else if !t.HelpDisabled() && !(t.helpEnter < t.helpExit) then Err(ValueError(HelpNotOrdered))
      else Ok(t)
  }

  /** `_help_enabled`: HELP is off only when both help values are negative,
      so one non-negative help value keeps it on. */
  predicate HelpEnabled(th: Thresholds): (b: bool)
    ensures b <==> th.helpEnter >= 0.0 || th.helpExit >= 0.0
  {
    !th.HelpDisabled()
  }

  // ---------------------------------------------------------------------
  // Transition engine
  // ---------------------------------------------------------------------

  /** This module's notion of "unstable": anything other than STABLE, so
      LOADED and RECOVERED count as unstable here. */
  predicate IsUnstableState(s: AgentState): (b: bool)
    ensures b <==> s in {Loaded, HelpSeeking, Rest, Recovered}
  {
    s != Stable
  }

  /** The priority-ordered hysteresis rule list (`next_agent_status`). */
  function NextAgentStatus(a: AgentStatus, th: Thresholds): (r: TransitionResult)
    // the stability passes through unchanged (no clamping)
    ensures r.nextStatus.stability == a.stability
    // at most one event, and an event only on a change of regime
    ensures |r.events| <= 1
    ensures |r.events| == 1 ==> r.nextStatus.state != a.state
    // the only silent change is LOADED to STABLE
    ensures r.nextStatus.state != a.state && |r.events| == 0 ==> a.state == Loaded && r.nextStatus.state == Stable
    // nothing ever enters LOADED
    ensures r.nextStatus.state == Loaded ==> a.state == Loaded
    // entering HELP or REST always announces itself
    ensures r.nextStatus.state == HelpSeeking && a.state != HelpSeeking ==> r.events == [EnterHelp]
    ensures r.nextStatus.state == Rest && a.state != Rest ==> r.events == [EnterRest]
    // and an entry event always lands in the regime it names, from outside it
    ensures EnterHelp in r.events ==> a.state != HelpSeeking && r.nextStatus.state == HelpSeeking
    ensures EnterRest in r.events ==> a.state != Rest && r.nextStatus.state == Rest
    // exits come from the sticky regime and land in RECOVERED
    ensures ExitHelp in r.events ==> a.state == HelpSeeking && r.nextStatus.state == Recovered
    ensures ExitRest in r.events ==> a.state == Rest && r.nextStatus.state == Recovered
    ensures RecoveredToStable in r.events ==> a.state == Recovered && r.nextStatus.state == Stable
    // the engine never emits an environment event
    ensures EnvDownshift !in r.events && EnvUpshift !in r.events
  {
    var s := a.state;
    var x := a.stability;
    var helpOn := HelpEnabled(th);
    if s == HelpSeeking && helpOn then
      if x >= th.helpExit then TransitionResult(AgentStatus(Recovered, x), [ExitHelp])
      else TransitionResult(AgentStatus(HelpSeeking, x), [])
    else if helpOn && x <= th.helpEnter then
      TransitionResult(AgentStatus(HelpSeeking, x), [EnterHelp])
    else if s == Rest then
      if x >= th.restExit then TransitionResult(AgentStatus(Recovered, x), [ExitRest])
      else TransitionResult(AgentStatus(Rest, x), [])
    else if x < th.restEnter then
      TransitionResult(AgentStatus(Rest, x), [EnterRest])
    else if s == Recovered && x >= th.visualMinStable then
      TransitionResult(AgentStatus(Stable, x), [RecoveredToStable])
    else if s == Loaded && x >= th.visualMinStable then
      TransitionResult(AgentStatus(Stable, x), [])
    else
      TransitionResult(AgentStatus(s, x), [])
  }

  /** HELP is sticky: with HELP on, a HELP_SEEKING agent leaves (to RECOVERED,
      with EXIT_HELP) exactly when the sample reaches help_exit, and otherwise
      stays silently, even far below rest_enter. */
  lemma HelpIsSticky(a: AgentStatus, th: Thresholds)
    requires HelpEnabled(th) && a.state == HelpSeeking
    ensures var r := NextAgentStatus(a, th);
      && (r.nextStatus.state == Recovered <==> a.stability >= th.helpExit)
      && (r.events == [ExitHelp] <==> a.stability >= th.helpExit)
      && (a.stability < th.helpExit ==> r.nextStatus.state == HelpSeeking && r.events == [])
  {
  }

  /** Entering HELP (inclusive `<=`) pre-empts REST stickiness and REST entry. */
  lemma HelpEntryPreemptsRest(a: AgentStatus, th: Thresholds)
    requires HelpEnabled(th) && a.state != HelpSeeking
    ensures var r := NextAgentStatus(a, th);
      (r.nextStatus.state == HelpSeeking <==> a.stability <= th.helpEnter)
      && (a.stability <= th.helpEnter ==> r.events == [EnterHelp])
  {
  }

  /** REST is left only at or above rest_exit (inclusive) when HELP does not pre-empt. */
  lemma RestExitInclusive(a: AgentStatus, th: Thresholds)
    requires a.state == Rest
    requires HelpEnabled(th) ==> a.stability > th.helpEnter
    ensures var r := NextAgentStatus(a, th);
      && (r.nextStatus.state == Recovered <==> a.stability >= th.restExit)
      && (r.events == [ExitRest] <==> a.stability >= th.restExit)
      && (a.stability < th.restExit ==> r.nextStatus.state == Rest && r.events == [])
  {
  }

  /** REST is entered only strictly below rest_enter: a sample exactly at
      rest_enter does not enter REST. */
  lemma RestEntryStrict(a: AgentStatus, th: Thresholds)
    requires a.state != Rest && a.state != HelpSeeking
    requires HelpEnabled(th) ==> a.stability > th.helpEnter
    ensures NextAgentStatus(a, th).nextStatus.state == Rest <==> a.stability < th.restEnter
    ensures a.stability == th.restEnter ==> EnterRest !in NextAgentStatus(a, th).events
  {
  }

  /** LOADED becomes STABLE, silently, once the sample reaches the visual floor
      (when neither HELP nor REST claims it first). */
  lemma LoadedBecomesStableSilently(a: AgentStatus, th: Thresholds)
    requires a.state == Loaded && a.stability >= th.visualMinStable && a.stability >= th.restEnter
    requires HelpEnabled(th) ==> a.stability > th.helpEnter
    ensures NextAgentStatus(a, th) == TransitionResult(AgentStatus(Stable, a.stability), [])
  {
  }

  /** RECOVERED becomes STABLE, with RECOVERED_TO_STABLE, once the sample
      reaches the visual floor (when neither HELP nor REST claims it first). */
  lemma RecoveredBecomesStable(a: AgentStatus, th: Thresholds)
    requires a.state == Recovered && a.stability >= th.visualMinStable && a.stability >= th.restEnter
    requires HelpEnabled(th) ==> a.stability > th.helpEnter
    ensures NextAgentStatus(a, th) == TransitionResult(AgentStatus(Stable, a.stability), [RecoveredToStable])
  {
  }

  /** When no rule fires (outside HELP and REST, neither entered, and below
      the visual floor, or already STABLE) the status comes back unchanged and
      silently. */
  lemma NoRuleKeepsStatus(a: AgentStatus, th: Thresholds)
    requires a.state != HelpSeeking && a.state != Rest
    requires a.stability >= th.restEnter
    requires HelpEnabled(th) ==> a.stability > th.helpEnter
    requires a.state == Stable || a.stability < th.visualMinStable
    ensures NextAgentStatus(a, th) == TransitionResult(a, [])
  {
  }

  /** With HELP disabled no HELP event is ever emitted, and a HELP_SEEKING agent
      can only leave by entering REST. */
  lemma HelpDisabledNeverSignalsHelp(a: AgentStatus, th: Thresholds)
    requires th.HelpDisabled()
    ensures var r := NextAgentStatus(a, th);
      && EnterHelp !in r.events && ExitHelp !in r.events
      && (a.state == HelpSeeking ==>
            if a.stability < th.restEnter then r.nextStatus.state == Rest && r.events == [EnterRest]
            else r.nextStatus.state == HelpSeeking && r.events == [])
  {
  }

  // ---------------------------------------------------------------------
  // Environment regulator helpers
  // ---------------------------------------------------------------------

  /** A (possibly unchanged) environment and the event that announced a change. */
  datatype EnvShift = EnvShift(env: EnvironmentState, event: Option<TransitionEvent>)

  /** `environment_downshift_if_needed`: DENSE falls back to CALM when any agent is unstable. */
  function EnvironmentDownshiftIfNeeded(env: EnvironmentState, anyAgentUnstable: bool): (r: EnvShift)
    ensures r.env != env <==> env == Dense && anyAgentUnstable
    ensures r.env != env ==> r.env == Calm
    ensures r.event.Some? <==> r.env != env
    ensures r.event.Some? ==> r.event.value == EnvDownshift
  {
    if env == Dense && anyAgentUnstable then EnvShift(Calm, Some(EnvDownshift)) else EnvShift(env, None)
  }

  /** `environment_upshift_if_needed`: CALM rises to DENSE when all agents are stable. */
  function EnvironmentUpshiftIfNeeded(env: EnvironmentState, allAgentsStable: bool): (r: EnvShift)
    ensures r.env != env <==> env == Calm && allAgentsStable
    ensures r.env != env ==> r.env == Dense
    ensures r.event.Some? <==> r.env != env
    ensures r.event.Some? ==> r.event.value == EnvUpshift
  {
    if env == Calm && allAgentsStable then EnvShift(Dense, Some(EnvUpshift)) else EnvShift(env, None)
  }

  // ---------------------------------------------------------------------
  // apply_rules
  // ---------------------------------------------------------------------

  /** Python's `any(is_unstable_state(s.state) for s in current)`. */
  function AnyUnstable(statuses: seq<AgentStatus>): (b: bool)
    ensures b <==> exists i :: 0 <= i < |statuses| && statuses[i].state != Stable
  {
    if |statuses| == 0 then false
    else IsUnstableState(statuses[0].state) || AnyUnstable(statuses[1..])
  }

  /** Python's `all(s.state == STABLE for s in current)`. */
  function AllStable(statuses: seq<AgentStatus>): (b: bool)
    ensures b <==> forall i :: 0 <= i < |statuses| ==> statuses[i].state == Stable
  {
    if |statuses| == 0 then true
    else statuses[0].state == Stable && AllStable(statuses[1..])
  }

  /** The per-agent loop of `apply_rules`. */
  function NextStatuses(statuses: seq<AgentStatus>, th: Thresholds): (r: seq<AgentStatus>)
    ensures |r| == |statuses|
    ensures forall i :: 0 <= i < |r| ==> r[i] == NextAgentStatus(statuses[i], th).nextStatus
  {
    if |statuses| == 0 then []
    else [NextAgentStatus(statuses[0], th).nextStatus] + NextStatuses(statuses[1..], th)
  }

  /** `apply_rules` on a list: element-wise transitions, and an environment
      computed from the PRE-transition regimes, downshift before upshift. */
  function ApplyRules(statuses: seq<AgentStatus>, env: EnvironmentState, th: Thresholds)
    : (r: (seq<AgentStatus>, EnvironmentState))
    ensures |r.0| == |statuses|
    ensures forall i :: 0 <= i < |statuses| ==> r.0[i] == NextAgentStatus(statuses[i], th).nextStatus
    ensures env == Dense && (exists i :: 0 <= i < |statuses| && statuses[i].state != Stable) ==> r.1 == Calm
    ensures env == Calm && (forall i :: 0 <= i < |statuses| ==> statuses[i].state == Stable) ==> r.1 == Dense
    ensures r.1 != env ==> (env == Dense && r.1 == Calm) || (env == Calm && r.1 == Dense)
    // and in every other case the environment stays
    ensures env == Dense && (forall i :: 0 <= i < |statuses| ==> statuses[i].state == Stable) ==> r.1 == Dense
    ensures env == Calm && (exists i :: 0 <= i < |statuses| && statuses[i].state != Stable) ==> r.1 == Calm
    ensures env == Active ==> r.1 == Active
  {
    var down := EnvironmentDownshiftIfNeeded(env, AnyUnstable(statuses));
    var env2 := if down.env == env then EnvironmentUpshiftIfNeeded(down.env, AllStable(statuses)).env else down.env;
    (NextStatuses(statuses, th), env2)
  }

  /** `apply_rules` on a single status: a single status comes back. */
  function ApplyRulesSingle(status: AgentStatus, env: EnvironmentState, th: Thresholds)
    : (r: (AgentStatus, EnvironmentState))
    ensures r.0 == NextAgentStatus(status, th).nextStatus
    ensures r.1 == (if env == Dense && status.state != Stable then Calm
                    else if env == Calm && status.state == Stable then Dense
                    else env)
  {
    var (next, env2) := ApplyRules([status], env, th);
    (next[0], env2)
  }

  /** An empty population counts as all-stable: CALM rises to DENSE. */
  lemma EmptyPopulationUpshifts(th: Thresholds)
    ensures ApplyRules([], Calm, th) == ([], Dense)
  {
  }
}
