/** The multi-agent step orchestrator (sandboxtown_v2/core/multi_agent_simulation.py):
    N agents driven through T steps, each step reading a snapshot of the
    regimes (contagion), transitioning every agent, then regulating the
    environment from the new regimes. */
module MultiAgentSimulation {
  import opened Results
  import opened Agents
  import opened StabilityRules
  import Contagion

  /** One step's record: new statuses, per-agent first events, and the
      environment after regulation with its event. */
  datatype MultiAgentStep = MultiAgentStep(
    agents: seq<AgentStatus>,
    agentEvents: seq<Option<TransitionEvent>>,
    environment: EnvironmentState,
    envEvent: Option<TransitionEvent>)

  datatype SimulationError = MissingInput | SequenceCountMismatch | UnequalSequenceLengths

  /** The environment a run starts in when none is given. */
  const DefaultStartEnvironment: EnvironmentState := Dense

  /** `_is_unstable`: this module's notion is HELP_SEEKING or REST, so LOADED
      and RECOVERED agents count as stable here. */
  predicate IsUnstable(s: AgentState): (b: bool)
    ensures b <==> s !in {Stable, Loaded, Recovered}
    // a stricter notion than the transition engine's
    ensures b ==> IsUnstableState(s)
  {
    s == HelpSeeking || s == Rest
  }

  /** `any(_is_unstable(a.state) for a in next_agents)`. */
  function AnyUnstable(agents: seq<AgentStatus>): (b: bool)
    ensures b <==> exists i :: 0 <= i < |agents| && IsUnstable(agents[i].state)
  {
    if |agents| == 0 then false else IsUnstable(agents[0].state) || AnyUnstable(agents[1..])
  }

  /** This module's own `environment_upshift_if_needed`; its event is the plain
      string "ENV_UPSHIFT", equal to the `EnvUpshift` tag. */
  function EnvironmentUpshiftIfNeeded(env: EnvironmentState, allAgentsStable: bool): (r: EnvShift)
    ensures allAgentsStable && env == Calm ==> r == EnvShift(Dense, Some(EnvUpshift))
    ensures !(allAgentsStable && env == Calm) ==> r == EnvShift(env, None)
  {
    if allAgentsStable && env == Calm then EnvShift(Dense, Some(EnvUpshift)) else EnvShift(env, None)
  }

  /** The local upshift and the one in the transition-engine module agree. */
  lemma UpshiftAgreesWithRulesHelper(env: EnvironmentState, allAgentsStable: bool)
    ensures EnvironmentUpshiftIfNeeded(env, allAgentsStable) == StabilityRules.EnvironmentUpshiftIfNeeded(env, allAgentsStable)
  {
  }

  /** Environment regulation from the NEW regimes: downshift first, and the
      upshift is only consulted when the downshift did not fire. */
  function RegulateEnvironment(env: EnvironmentState, newAgents: seq<AgentStatus>): (r: EnvShift)
    ensures env == Dense && (exists i :: 0 <= i < |newAgents| && IsUnstable(newAgents[i].state))
            ==> r == EnvShift(Calm, Some(EnvDownshift))
    ensures env == Calm && (forall i :: 0 <= i < |newAgents| ==> !IsUnstable(newAgents[i].state))
            ==> r == EnvShift(Dense, Some(EnvUpshift))
    // and in every other case the environment stays, silently
    ensures env == Dense && (forall i :: 0 <= i < |newAgents| ==> !IsUnstable(newAgents[i].state))
            ==> r == EnvShift(Dense, None)
    ensures env == Calm && (exists i :: 0 <= i < |newAgents| && IsUnstable(newAgents[i].state))
            ==> r == EnvShift(Calm, None)
    ensures env == Active ==> r == EnvShift(Active, None)
    ensures r.env != env <==> r.event.Some?
    ensures r.env != Active <==> env != Active
  {
    var anyUnstable := AnyUnstable(newAgents);
    var down := EnvironmentDownshiftIfNeeded(env, anyUnstable);
    if down.env == env && down.event.None? then EnvironmentUpshiftIfNeeded(env, !anyUnstable)
    else down
  }

  /** Column `t` of the per-agent sample sequences: every agent's sample at step `t`. */
  function Column(sequences: seq<seq<real>>, t: nat): (raw: seq<real>)
    requires forall i :: 0 <= i < |sequences| ==> t < |sequences[i]|
    ensures |raw| == |sequences|
    ensures forall i :: 0 <= i < |raw| ==> raw[i] == sequences[i][t]
  {
    if |sequences| == 0 then [] else [sequences[0][t]] + Column(sequences[1..], t)
  }

  /** The columns `t .. n - 1`, one per remaining step, each with one input per agent. */
  function Columns(sequences: seq<seq<real>>, n: nat, t: nat): (columns: seq<seq<real>>)
    requires Rectangular(sequences, n) && t <= n
    ensures |columns| == n - t
    ensures forall k :: 0 <= k < |columns| ==> |columns[k]| == |sequences|
    decreases n - t
  {
    if t == n then [] else [Column(sequences, t)] + Columns(sequences, n, t + 1)
  }

  /** Column `k` of the remaining columns holds every agent's sample at step `t + k`. */
  lemma {:induction false} ColumnsAt(sequences: seq<seq<real>>, n: nat, t: nat, k: nat, i: nat)
    requires Rectangular(sequences, n) && t + k < n && i < |sequences|
    ensures Columns(sequences, n, t)[k][i] == sequences[i][t + k]
    decreases k
  {
    if k > 0 {
      ColumnsAt(sequences, n, t + 1, k - 1, i);
    }
  }

  /** Column `k` of all the columns is the column of step `k`. */
  lemma ColumnIsColumnsAt(sequences: seq<seq<real>>, n: nat, k: nat)
    requires Rectangular(sequences, n) && k < n
    ensures Columns(sequences, n, 0)[k] == Column(sequences, k)
  {
    forall i | 0 <= i < |sequences|
      ensures Columns(sequences, n, 0)[k][i] == sequences[i][k]
    {
      ColumnsAt(sequences, n, 0, k, i);
    }
  }

  /** The step's stability inputs: contagion (the capped version) runs only
      when a configuration is given and enabled, on the PRE-transition regimes
      and the environment as it stood before the step. */
  function StepInputs(raw: seq<real>, states: seq<AgentState>, env: EnvironmentState,
                      contagion: Option<Contagion.ContagionConfig>): (inputs: seq<real>)
    requires |raw| == |states|
    ensures |inputs| == |raw|
    ensures !(contagion.Some? && contagion.value.enabled) ==> inputs == raw
    ensures contagion.Some? && contagion.value.enabled ==>
              Contagion.ApplyContagion(raw, states, env, contagion.value) == Ok(inputs)
  {
    if contagion.Some? && contagion.value.enabled then
      Contagion.ApplyContagion(raw, states, env, contagion.value).value
    else raw
  }

  /** The per-agent transition loop: agent `i` keeps its regime and takes input `i`. */
  function Transitions(prev: seq<AgentStatus>, inputs: seq<real>, th: Thresholds): (rs: seq<TransitionResult>)
    requires |inputs| == |prev|
    ensures |rs| == |prev|
    ensures forall i :: 0 <= i < |rs| ==> rs[i] == NextAgentStatus(AgentStatus(prev[i].state, inputs[i]), th)
  {
    if |prev| == 0 then []
    else [NextAgentStatus(AgentStatus(prev[0].state, inputs[0]), th)] + Transitions(prev[1..], inputs[1..], th)
  }

  function NextAgents(rs: seq<TransitionResult>): (agents: seq<AgentStatus>)
    ensures |agents| == |rs|
    ensures forall i :: 0 <= i < |rs| ==> agents[i] == rs[i].nextStatus
  {
    seq(|rs|, i requires 0 <= i < |rs| => rs[i].nextStatus)
  }

  function FirstEvents(rs: seq<TransitionResult>): (events: seq<Option<TransitionEvent>>)
    ensures |events| == |rs|
    ensures forall i :: 0 <= i < |rs| ==> events[i] == rs[i].Event()
  {
    seq(|rs|, i requires 0 <= i < |rs| => rs[i].Event())
  }

  /** One step of the loop body. */
  function StepOnce(prev: seq<AgentStatus>, raw: seq<real>, env: EnvironmentState, th: Thresholds,
                    contagion: Option<Contagion.ContagionConfig>): (s: MultiAgentStep)
    requires |raw| == |prev|
    ensures |s.agents| == |prev| && |s.agentEvents| == |prev|
    ensures EnvShift(s.environment, s.envEvent) == RegulateEnvironment(env, s.agents)
  {
    var inputs := StepInputs(raw, States(prev), env, contagion);
    var rs := Transitions(prev, inputs, th);
    var next := NextAgents(rs);
    var shift := RegulateEnvironment(env, next);
    MultiAgentStep(next, FirstEvents(rs), shift.env, shift.event)
  }

  /** What one step computes: agent `i` is the transition of its previous
      regime with its (possibly contagion-adjusted) input, its event is that
      transition's first event, and the environment is regulated from the new
      regimes. */
  lemma StepOnceSpec(prev: seq<AgentStatus>, raw: seq<real>, env: EnvironmentState, th: Thresholds,
                     contagion: Option<Contagion.ContagionConfig>)
    requires |raw| == |prev|
    ensures var s := StepOnce(prev, raw, env, th, contagion);
      var inputs := StepInputs(raw, States(prev), env, contagion);
      && (forall i :: 0 <= i < |prev| ==>
            && s.agents[i] == NextAgentStatus(AgentStatus(prev[i].state, inputs[i]), th).nextStatus
            && s.agentEvents[i] == NextAgentStatus(AgentStatus(prev[i].state, inputs[i]), th).Event())
      && EnvShift(s.environment, s.envEvent) == RegulateEnvironment(env, s.agents)
  {
  }

  /** Every sequence has length `n`. */
  predicate Rectangular(sequences: seq<seq<real>>, n: nat) {
    forall i :: 0 <= i < |sequences| ==> |sequences[i]| == n
  }

  /** The loop body as a total function value. A column as wide as the
      population is one step; no run ever passes a column of another width,
      and for one the population and environment are simply carried over. */
  function StepOf(th: Thresholds, contagion: Option<Contagion.ContagionConfig>)
    : (f: (seq<AgentStatus>, seq<real>, EnvironmentState) -> MultiAgentStep)
    ensures forall p, r, e :: |r| == |p| ==> f(p, r, e) == StepOnce(p, r, e, th, contagion)
    ensures forall p, r, e :: |r| == |p| ==> |f(p, r, e).agents| == |p| && |f(p, r, e).agentEvents| == |p|
  {
    (p: seq<AgentStatus>, r: seq<real>, e: EnvironmentState) =>
      if |r| == |p| then StepOnce(p, r, e, th, contagion) else MultiAgentStep(p, [], e, None)
  }

  /** The step loop for any loop body `f`, as recursion over the remaining
      columns: each step starts from the previous step's statuses and
      environment. */
  function RunWith(f: (seq<AgentStatus>, seq<real>, EnvironmentState) -> MultiAgentStep,
                   current: seq<AgentStatus>, columns: seq<seq<real>>, env: EnvironmentState)
    : (steps: seq<MultiAgentStep>)
    ensures |steps| == |columns|
    decreases |columns|
  {
    if |columns| == 0 then []
    else
      var s := f(current, columns[0], env);
      [s] + RunWith(f, s.agents, columns[1..], s.environment)
  }

  /** Step `k` of a run is the loop body applied to the previous step's
      statuses (replaced wholesale), the previous step's recorded
      environment, and column `k`. */
  lemma {:induction false} RunWithAt(f: (seq<AgentStatus>, seq<real>, EnvironmentState) -> MultiAgentStep,
                                     current: seq<AgentStatus>, columns: seq<seq<real>>, env: EnvironmentState, k: nat)
    requires k < |columns|
    ensures var steps := RunWith(f, current, columns, env);
      steps[k] == f(AgentsBefore(current, steps, k), columns[k], EnvBefore(env, steps, k))
    decreases k
  {
    var steps := RunWith(f, current, columns, env);
    var s := f(current, columns[0], env);
    var rest := RunWith(f, s.agents, columns[1..], s.environment);
    assert steps == [s] + rest;
    if k > 0 {
      RunWithAt(f, s.agents, columns[1..], s.environment, k - 1);
      assert steps[k] == rest[k - 1];
      assert AgentsBefore(current, steps, k) == AgentsBefore(s.agents, rest, k - 1);
      assert EnvBefore(env, steps, k) == EnvBefore(s.environment, rest, k - 1);
    }
  }

  /** A loop body that keeps the population's width keeps it at every step. */
  lemma {:induction false} RunWithWidth(f: (seq<AgentStatus>, seq<real>, EnvironmentState) -> MultiAgentStep,
                                        current: seq<AgentStatus>, columns: seq<seq<real>>, env: EnvironmentState)
    requires forall k :: 0 <= k < |columns| ==> |columns[k]| == |current|
    requires forall p, r, e :: |r| == |p| ==> |f(p, r, e).agents| == |p| && |f(p, r, e).agentEvents| == |p|
    ensures forall k :: 0 <= k < |columns| ==>
              |RunWith(f, current, columns, env)[k].agents| == |current|
              && |RunWith(f, current, columns, env)[k].agentEvents| == |current|
    decreases |columns|
  {
    if |columns| > 0 {
      var steps := RunWith(f, current, columns, env);
      var s := f(current, columns[0], env);
      var rest := RunWith(f, s.agents, columns[1..], s.environment);
      assert steps == [s] + rest;
      assert |s.agents| == |current|;
      RunWithWidth(f, s.agents, columns[1..], s.environment);
      forall k | 1 <= k < |columns|
        ensures |steps[k].agents| == |current| && |steps[k].agentEvents| == |current|
      {
        assert steps[k] == rest[k - 1];
      }
    }
  }

  /** The step loop of the orchestrator: one step per column, each with one
      status and one event per agent. */
  function RunFrom(current: seq<AgentStatus>, columns: seq<seq<real>>,
                   env: EnvironmentState, th: Thresholds, contagion: Option<Contagion.ContagionConfig>)
    : (steps: seq<MultiAgentStep>)
    requires forall k :: 0 <= k < |columns| ==> |columns[k]| == |current|
    ensures |steps| == |columns|
    ensures forall k :: 0 <= k < |steps| ==> |steps[k].agents| == |current| && |steps[k].agentEvents| == |current|
  {
    var f := StepOf(th, contagion);
    RunWithWidth(f, current, columns, env);
    RunWith(f, current, columns, env)
  }

  /** The number of steps: the common sequence length, or 0 without agents. */
  function StepCount(agents: seq<AgentStatus>, sequences: seq<seq<real>>): nat
    requires |sequences| == |agents|
  {
    if |agents| > 0 then |sequences[0]| else 0
  }

  /** `run_multi_agent_simulation`, with its three validation errors. */
  function RunMultiAgentSimulation(
    agents: Option<seq<AgentStatus>>, sequences: Option<seq<seq<real>>>, th: Thresholds,
    startEnvironment: Option<EnvironmentState>, contagion: Option<Contagion.ContagionConfig>)
    : (r: Result<seq<MultiAgentStep>, SimulationError>)
    ensures agents.None? || sequences.None? <==> r == Err(MissingInput)
    ensures agents.Some? && sequences.Some? && |sequences.value| != |agents.value|
            ==> r == Err(SequenceCountMismatch)
    ensures agents.Some? && sequences.Some? && |sequences.value| == |agents.value| ==>
              (r == Err(UnequalSequenceLengths) <==>
                 exists i, j :: 0 <= i < |sequences.value| && 0 <= j < |sequences.value|
                                && |sequences.value[i]| != |sequences.value[j]|)
    ensures r.Ok? ==>
              && |r.value| == StepCount(agents.value, sequences.value)
              && (forall i :: 0 <= i < |agents.value| ==> |sequences.value[i]| == |r.value|)
              && forall k :: 0 <= k < |r.value| ==>
                   |r.value[k].agents| == |agents.value| && |r.value[k].agentEvents| == |agents.value|
  {
    if agents.None? || sequences.None? then Err(MissingInput)
    else
      var agents, sequences := agents.value, sequences.value;
      if |sequences| != |agents| then Err(SequenceCountMismatch)
      else
        var n := StepCount(agents, sequences);
        if !Rectangular(sequences, n) then Err(UnequalSequenceLengths)
        else Ok(RunFrom(agents, Columns(sequences, n, 0), startEnvironment.GetOr(DefaultStartEnvironment), th, contagion))
  }

  /** A well-formed call is the step loop over all the columns, from the
      given start environment or DENSE when none is given. */
  lemma RunMultiAgentSimulationIsRunFrom(
    agents: seq<AgentStatus>, sequences: seq<seq<real>>, th: Thresholds,
    startEnvironment: Option<EnvironmentState>, contagion: Option<Contagion.ContagionConfig>)
    requires |sequences| == |agents| && Rectangular(sequences, StepCount(agents, sequences))
    ensures RunMultiAgentSimulation(Some(agents), Some(sequences), th, startEnvironment, contagion)
            == Ok(RunFrom(agents, Columns(sequences, StepCount(agents, sequences), 0),
                          if startEnvironment.None? then Dense else startEnvironment.value, th, contagion))
  {
    var n := StepCount(agents, sequences);
    var start := startEnvironment.GetOr(DefaultStartEnvironment);
    assert start == if startEnvironment.None? then Dense else startEnvironment.value;
    var steps := RunFrom(agents, Columns(sequences, n, 0), start, th, contagion);
    assert RunMultiAgentSimulation(Some(agents), Some(sequences), th, startEnvironment, contagion) == Ok(steps);
  }

  /** Step `k` of a well-formed run is one loop body on the statuses and
      environment the previous step left (for step 0: the given agents and
      the start environment, DENSE when none is given) and every agent's
      sample `k`. */
  lemma RunMultiAgentSimulationAt(
    agents: seq<AgentStatus>, sequences: seq<seq<real>>, th: Thresholds,
    startEnvironment: Option<EnvironmentState>, contagion: Option<Contagion.ContagionConfig>, k: nat)
    requires |sequences| == |agents| && Rectangular(sequences, StepCount(agents, sequences))
    requires k < StepCount(agents, sequences)
    ensures var start := if startEnvironment.None? then Dense else startEnvironment.value;
      var steps := RunFrom(agents, Columns(sequences, StepCount(agents, sequences), 0), start, th, contagion);
      && RunMultiAgentSimulation(Some(agents), Some(sequences), th, startEnvironment, contagion) == Ok(steps)
      && steps[k] == StepOnce(AgentsBefore(agents, steps, k), Column(sequences, k), EnvBefore(start, steps, k), th, contagion)
  {
    var n := StepCount(agents, sequences);
    var start := if startEnvironment.None? then Dense else startEnvironment.value;
    RunMultiAgentSimulationIsRunFrom(agents, sequences, th, startEnvironment, contagion);
    RunFromAt(agents, Columns(sequences, n, 0), start, th, contagion, k);
    ColumnIsColumnsAt(sequences, n, k);
  }

  /** The statuses a step starts from: the initial ones, then the previous step's. */
  function AgentsBefore(current: seq<AgentStatus>, steps: seq<MultiAgentStep>, k: nat): seq<AgentStatus>
    requires k <= |steps|
  {
    if k == 0 then current else steps[k - 1].agents
  }

  /** The environment a step starts from: the initial one, then the previous step's. */
  function EnvBefore(env: EnvironmentState, steps: seq<MultiAgentStep>, k: nat): EnvironmentState
    requires k <= |steps|
  {
    if k == 0 then env else steps[k - 1].environment
  }

  /** Step `k` of a run is `StepOnce` applied to the previous step's
      statuses (replaced wholesale), the previous step's recorded
      environment, and column `k`. */
  lemma RunFromAt(
    current: seq<AgentStatus>, columns: seq<seq<real>>,
    env: EnvironmentState, th: Thresholds, contagion: Option<Contagion.ContagionConfig>, k: nat)
    requires forall j :: 0 <= j < |columns| ==> |columns[j]| == |current|
    requires k < |columns|
    ensures var steps := RunFrom(current, columns, env, th, contagion);
      steps[k] == StepOnce(AgentsBefore(current, steps, k), columns[k], EnvBefore(env, steps, k), th, contagion)
  {
    var steps := RunFrom(current, columns, env, th, contagion);
    RunWithAt(StepOf(th, contagion), current, columns, env, k);
    assert |AgentsBefore(current, steps, k)| == |columns[k]|;
  }

  /** One step keeps the environment ACTIVE exactly when it was ACTIVE. */
  lemma StepKeepsActive(prev: seq<AgentStatus>, raw: seq<real>, env: EnvironmentState, th: Thresholds,
                        contagion: Option<Contagion.ContagionConfig>)
    requires |raw| == |prev|
    ensures StepOnce(prev, raw, env, th, contagion).environment == Active <==> env == Active
  {
    var s := StepOnce(prev, raw, env, th, contagion);
    assert RegulateEnvironment(env, s.agents).env == s.environment;
  }

  /** A loop body that keeps the environment ACTIVE exactly when it was
      ACTIVE does so at every step of the run. */
  lemma {:induction false} RunWithKeepsActive(f: (seq<AgentStatus>, seq<real>, EnvironmentState) -> MultiAgentStep,
                                              current: seq<AgentStatus>, columns: seq<seq<real>>, env: EnvironmentState)
    requires forall p, r, e :: f(p, r, e).environment == Active <==> e == Active
    ensures forall k :: 0 <= k < |columns| ==>
              (RunWith(f, current, columns, env)[k].environment == Active <==> env == Active)
    decreases |columns|
  {
    if |columns| > 0 {
      var steps := RunWith(f, current, columns, env);
      var s := f(current, columns[0], env);
      var rest := RunWith(f, s.agents, columns[1..], s.environment);
      assert steps == [s] + rest;
      RunWithKeepsActive(f, s.agents, columns[1..], s.environment);
      forall k | 1 <= k < |columns|
        ensures steps[k].environment == Active <==> env == Active
      {
        assert steps[k] == rest[k - 1];
      }
    }
  }

  /** ACTIVE is inert: a run that starts ACTIVE stays ACTIVE, and a run that
      starts elsewhere never produces it. */
  lemma ActiveIsInert(
    current: seq<AgentStatus>, columns: seq<seq<real>>,
    env: EnvironmentState, th: Thresholds, contagion: Option<Contagion.ContagionConfig>)
    requires forall j :: 0 <= j < |columns| ==> |columns[j]| == |current|
    ensures forall k :: 0 <= k < |columns| ==>
              (RunFrom(current, columns, env, th, contagion)[k].environment == Active <==> env == Active)
  {
    var f := StepOf(th, contagion);
    forall p, r, e ensures f(p, r, e).environment == Active <==> e == Active {
      if |r| == |p| {
        StepKeepsActive(p, r, e, th, contagion);
      }
    }
    RunWithKeepsActive(f, current, columns, env);
  }

  /** Two STABLE agents at 0.9 in a CALM environment, one sample of 0.9 each:
      the first step upshifts to DENSE with ENV_UPSHIFT. */
  lemma UpshiftScenario()
    ensures var r := RunMultiAgentSimulation(
              Some([AgentStatus(Stable, 0.9), AgentStatus(Stable, 0.9)]), Some([[0.9], [0.9]]),
              Thresholds(0.30, 0.40, 0.20, 0.35, 0.75), Some(Calm), None);
      r.Ok? && |r.value| == 1 && r.value[0].environment == Dense && r.value[0].envEvent == Some(EnvUpshift)
  {
    var agents := [AgentStatus(Stable, 0.9), AgentStatus(Stable, 0.9)];
    var th := Thresholds(0.30, 0.40, 0.20, 0.35, 0.75);
    var columns := Columns([[0.9], [0.9]], 1, 0);
    assert Column([[0.9], [0.9]], 0) == [0.9, 0.9];
    assert columns == [[0.9, 0.9]];
    UpshiftStep(agents, th);
    RunFromAt(agents, columns, Calm, th, None, 0);
  }

  /** The step of the scenario above, on its one column. */
  lemma UpshiftStep(agents: seq<AgentStatus>, th: Thresholds)
    requires agents == [AgentStatus(Stable, 0.9), AgentStatus(Stable, 0.9)]
    requires th == Thresholds(0.30, 0.40, 0.20, 0.35, 0.75)
    ensures var s := StepOnce(agents, [0.9, 0.9], Calm, th, None);
      s.environment == Dense && s.envEvent == Some(EnvUpshift)
  {
    var s := StepOnce(agents, [0.9, 0.9], Calm, th, None);
    StepOnceSpec(agents, [0.9, 0.9], Calm, th, None);
    assert s.agents[0].state == Stable && s.agents[1].state == Stable;
  }

  /** A loop that mirrors the Python function: validation, then the step loop. */
  method RunMultiAgentLoop(
    agents: Option<seq<AgentStatus>>, sequences: Option<seq<seq<real>>>, th: Thresholds,
    startEnvironment: Option<EnvironmentState>, contagion: Option<Contagion.ContagionConfig>)
    returns (r: Result<seq<MultiAgentStep>, SimulationError>)
    ensures r == RunMultiAgentSimulation(agents, sequences, th, startEnvironment, contagion)
  {
    if agents.None? || sequences.None? {
      return Err(MissingInput);
    }
    var initial, seqs := agents.value, sequences.value;
    if |seqs| != |initial| {
      return Err(SequenceCountMismatch);
    }
    var n := if |initial| > 0 then |seqs[0]| else 0;
    var i := 0;
    while i < |seqs|
      invariant 0 <= i <= |seqs|
      invariant forall j :: 0 <= j < i ==> |seqs[j]| == n
    {
      if |seqs[i]| != n {
        return Err(UnequalSequenceLengths);
      }
      i := i + 1;
    }
    var steps := StepLoop(initial, seqs, n, startEnvironment.GetOr(DefaultStartEnvironment), th, contagion);
    return Ok(steps);
  }

  /** The step loop: one iteration per column, each replacing the statuses
      and the environment wholesale. */
  method StepLoop(initial: seq<AgentStatus>, seqs: seq<seq<real>>, n: nat, start: EnvironmentState,
                  th: Thresholds, contagion: Option<Contagion.ContagionConfig>)
    returns (steps: seq<MultiAgentStep>)
    requires |seqs| == |initial| && Rectangular(seqs, n)
    ensures steps == RunFrom(initial, Columns(seqs, n, 0), start, th, contagion)
  {
    var columns := Columns(seqs, n, 0);
    ghost var run := RunFrom(initial, columns, start, th, contagion);
    var env := start;
    var current := initial;
    steps := [];
    var t := 0;
    while t < n
      invariant 0 <= t <= n && |current| == |seqs|
      invariant steps == run[..t]
      invariant current == AgentsBefore(initial, run, t) && env == EnvBefore(start, run, t)
    {
      var step := StepOnce(current, columns[t], env, th, contagion);
      StepLoopAdvance(initial, columns, start, th, contagion, t);
      steps := steps + [step];
      env := step.environment;
      current := step.agents;
      t := t + 1;
    }
    TakeAll(run);
  }

  /** One iteration of the step loop: the body on the state before step `t`
      is step `t` of the run, which extends the prefix by one and is the
      state before step `t + 1`. */
  lemma StepLoopAdvance(
    initial: seq<AgentStatus>, columns: seq<seq<real>>,
    start: EnvironmentState, th: Thresholds, contagion: Option<Contagion.ContagionConfig>, t: nat)
    requires forall j :: 0 <= j < |columns| ==> |columns[j]| == |initial|
    requires t < |columns|
    ensures var run := RunFrom(initial, columns, start, th, contagion);
      && |AgentsBefore(initial, run, t)| == |columns[t]|
      && StepOnce(AgentsBefore(initial, run, t), columns[t], EnvBefore(start, run, t), th, contagion) == run[t]
      && run[..t + 1] == run[..t] + [run[t]]
      && AgentsBefore(initial, run, t + 1) == run[t].agents
      && EnvBefore(start, run, t + 1) == run[t].environment
  {
    var run := RunFrom(initial, columns, start, th, contagion);
    RunFromAt(initial, columns, start, th, contagion, t);
    TakeOneMore(run, t);
  }

  lemma TakeOneMore<T>(s: seq<T>, t: nat)
    requires t < |s|
    ensures s[..t + 1] == s[..t] + [s[t]]
  {
  }

  lemma TakeAll<T>(s: seq<T>)
    ensures s[..|s|] == s
  {
  }
}
