/** The single-agent runner (sandboxtown_v2/core/simulation_runner.py): one
    transition per stability sample, each starting from the previous regime. */
module SimulationRunner {
  import opened Results
  import opened Agents
  import opened StabilityRules

  /** One step's status and events. */
  datatype SimulationStep = SimulationStep(status: AgentStatus, events: seq<TransitionEvent>) {

    /** The first event, or `None`: the same shim as the transition
        result's. */
    function Event(): (e: Option<TransitionEvent>)
      ensures e.None? <==> events == []
      ensures e.Some? ==> e.value in events && e.value == events[0]
    {
      TransitionResult(status, events).Event()
    }
  }

  /** One sample applied to the previous regime. */
  function Advance(state: AgentState, sample: real, th: Thresholds): SimulationStep {
    var r := NextAgentStatus(AgentStatus(state, sample), th);
    SimulationStep(r.nextStatus, r.events)
  }

  /** `run_simulation`, as recursion over the remaining samples. */
  function RunSimulation(start: AgentStatus, samples: seq<real>, th: Thresholds): (steps: seq<SimulationStep>)
    ensures |steps| == |samples|
    decreases |samples|
  {
    if |samples| == 0 then []
    else
      var step := Advance(start.state, samples[0], th);
      [step] + RunSimulation(step.status, samples[1..], th)
  }

  /** The regime an agent holds before step `i`: the start regime, then the
      previous step's output. */
  function StateBefore(start: AgentStatus, steps: seq<SimulationStep>, i: nat): AgentState
    requires i <= |steps|
  {
    if i == 0 then start.state else steps[i - 1].status.state
  }

  /** Step `i` is the transition of sample `i` from the regime before it. */
  lemma {:induction false} StepAt(start: AgentStatus, samples: seq<real>, th: Thresholds, i: nat)
    requires i < |samples|
    ensures var steps := RunSimulation(start, samples, th);
      steps[i] == Advance(StateBefore(start, steps, i), samples[i], th)
    decreases i
  {
    var steps := RunSimulation(start, samples, th);
    var s0 := Advance(start.state, samples[0], th);
    var rest := RunSimulation(s0.status, samples[1..], th);
    assert steps == [s0] + rest;
    if i > 0 {
      StepAt(s0.status, samples[1..], th, i - 1);
      assert steps[i] == rest[i - 1];
      assert StateBefore(start, steps, i) == StateBefore(s0.status, rest, i - 1);
    }
  }

  /** The same, for every step of a run. */
  lemma RunSimulationStepwise(start: AgentStatus, samples: seq<real>, th: Thresholds)
    ensures var steps := RunSimulation(start, samples, th);
      forall i :: 0 <= i < |samples| ==> steps[i] == Advance(StateBefore(start, steps, i), samples[i], th)
  {
    forall i | 0 <= i < |samples|
      ensures RunSimulation(start, samples, th)[i]
              == Advance(StateBefore(start, RunSimulation(start, samples, th), i), samples[i], th)
    {
      StepAt(start, samples, th, i);
    }
  }

  /** What a step records: the sample as stability, and the transition's
      regime and events; its `Event()` is the transition's first event. */
  lemma AdvanceRecords(state: AgentState, sample: real, th: Thresholds)
    ensures var step := Advance(state, sample, th);
      var r := NextAgentStatus(AgentStatus(state, sample), th);
      && step.status == r.nextStatus
      && step.status.stability == sample
      && step.Event() == r.Event()
      && |step.events| <= 1
  {
  }

  /** The start status's stability is never read. */
  lemma StartStabilityUnused(s: AgentState, x: real, y: real, samples: seq<real>, th: Thresholds)
    ensures RunSimulation(AgentStatus(s, x), samples, th) == RunSimulation(AgentStatus(s, y), samples, th)
  {
  }

  /** Stickiness over a run: once HELP_SEEKING with HELP on, samples strictly
      below help_exit never change the regime and never emit an event. */
  lemma {:induction false} HelpStaysWhileBelowExit(start: AgentStatus, samples: seq<real>, th: Thresholds)
    requires HelpEnabled(th) && start.state == HelpSeeking
    requires forall i :: 0 <= i < |samples| ==> samples[i] < th.helpExit
    ensures forall i :: 0 <= i < |samples| ==>
              RunSimulation(start, samples, th)[i].status == AgentStatus(HelpSeeking, samples[i])
              && RunSimulation(start, samples, th)[i].events == []
    decreases |samples|
  {
    if |samples| > 0 {
      var steps := RunSimulation(start, samples, th);
      var s0 := Advance(start.state, samples[0], th);
      HelpIsSticky(AgentStatus(start.state, samples[0]), th);
      assert s0.status.state == HelpSeeking && s0.events == [];
      HelpStaysWhileBelowExit(s0.status, samples[1..], th);
      var rest := RunSimulation(s0.status, samples[1..], th);
      assert steps == [s0] + rest;
      forall i | 1 <= i < |steps|
        ensures steps[i].status == AgentStatus(HelpSeeking, samples[i]) && steps[i].events == []
      {
        assert steps[i] == rest[i - 1];
        assert samples[1..][i - 1] == samples[i];
      }
    }
  }

  /** A sticky regime (HELP_SEEKING or REST) with its entry tag. */
  predicate EntryPair(s: AgentState, e: TransitionEvent) {
    (s == HelpSeeking && e == EnterHelp) || (s == Rest && e == EnterRest)
  }

  /** Reaching a sticky regime after step `i` from outside it takes an entry
      event at some step in between. */
  lemma {:induction false} ReachingNeedsEntry(
    start: AgentStatus, samples: seq<real>, th: Thresholds, s: AgentState, e: TransitionEvent, i: nat, m: nat)
    requires EntryPair(s, e)
    requires i <= m < |samples|
    requires RunSimulation(start, samples, th)[i].status.state != s
    requires RunSimulation(start, samples, th)[m].status.state == s
    ensures var steps := RunSimulation(start, samples, th);
      exists k :: i < k <= m && steps[k].events == [e]
    decreases m
  {
    var steps := RunSimulation(start, samples, th);
    assert m > i;
    if steps[m - 1].status.state == s {
      ReachingNeedsEntry(start, samples, th, s, e, i, m - 1);
    } else {
      StepAt(start, samples, th, m);
      assert steps[m] == Advance(steps[m - 1].status.state, samples[m], th);
      assert steps[m].events == [e];
    }
  }

  /** EXIT_HELP fires at most once per residency in HELP_SEEKING: between two
      EXIT_HELP steps there is an ENTER_HELP step. */
  lemma ExitHelpNeedsReentry(start: AgentStatus, samples: seq<real>, th: Thresholds, i: nat, j: nat)
    requires i < j < |samples|
    requires RunSimulation(start, samples, th)[i].Event() == Some(ExitHelp)
    requires RunSimulation(start, samples, th)[j].Event() == Some(ExitHelp)
    ensures var steps := RunSimulation(start, samples, th);
      exists k :: i < k < j && steps[k].Event() == Some(EnterHelp)
  {
    ExitNeedsReentry(start, samples, th, HelpSeeking, ExitHelp, EnterHelp, i, j);
  }

  /** EXIT_REST fires at most once per residency in REST: between two
      EXIT_REST steps there is an ENTER_REST step. */
  lemma ExitRestNeedsReentry(start: AgentStatus, samples: seq<real>, th: Thresholds, i: nat, j: nat)
    requires i < j < |samples|
    requires RunSimulation(start, samples, th)[i].Event() == Some(ExitRest)
    requires RunSimulation(start, samples, th)[j].Event() == Some(ExitRest)
    ensures var steps := RunSimulation(start, samples, th);
      exists k :: i < k < j && steps[k].Event() == Some(EnterRest)
  {
    ExitNeedsReentry(start, samples, th, Rest, ExitRest, EnterRest, i, j);
  }

  /** A step that reports an exit left the sticky regime for RECOVERED. */
  lemma ExitLeavesForRecovered(state: AgentState, sample: real, th: Thresholds, s: AgentState, exit: TransitionEvent)
    requires (s == HelpSeeking && exit == ExitHelp) || (s == Rest && exit == ExitRest)
    requires Advance(state, sample, th).Event() == Some(exit)
    ensures state == s && Advance(state, sample, th).status.state == Recovered
  {
    var r := NextAgentStatus(AgentStatus(state, sample), th);
    assert exit in r.events;
  }

  lemma ExitNeedsReentry(
    start: AgentStatus, samples: seq<real>, th: Thresholds,
    s: AgentState, exit: TransitionEvent, entry: TransitionEvent, i: nat, j: nat)
    requires (s == HelpSeeking && exit == ExitHelp && entry == EnterHelp)
          || (s == Rest && exit == ExitRest && entry == EnterRest)
    requires i < j < |samples|
    requires RunSimulation(start, samples, th)[i].Event() == Some(exit)
    requires RunSimulation(start, samples, th)[j].Event() == Some(exit)
    ensures var steps := RunSimulation(start, samples, th);
      exists k :: i < k < j && steps[k].Event() == Some(entry)
  {
    var steps := RunSimulation(start, samples, th);
    StepAt(start, samples, th, i);
    StepAt(start, samples, th, j);
    // after an exit the agent is RECOVERED; before the next exit it is back in `s`
    assert steps[i] == Advance(StateBefore(start, steps, i), samples[i], th);
    ExitLeavesForRecovered(StateBefore(start, steps, i), samples[i], th, s, exit);
    assert steps[j] == Advance(steps[j - 1].status.state, samples[j], th);
    ExitLeavesForRecovered(steps[j - 1].status.state, samples[j], th, s, exit);
    ReachingNeedsEntry(start, samples, th, s, entry, i, j - 1);
    var k :| i < k <= j - 1 && steps[k].events == [entry];
    assert steps[k].Event() == Some(entry);
  }

  /** The worked help cycle: thresholds help 0.30/0.40, rest 0.20/0.35, visual
      0.75; LOADED@0.5 with samples 0.25, 0.28, 0.45 enters HELP, holds it
      silently, then exits to RECOVERED. */
  lemma HelpCycleScenario()
    ensures RunSimulation(AgentStatus(Loaded, 0.5), [0.25, 0.28, 0.45], Thresholds(0.30, 0.40, 0.20, 0.35, 0.75))
         == [ SimulationStep(AgentStatus(HelpSeeking, 0.25), [EnterHelp]),
              SimulationStep(AgentStatus(HelpSeeking, 0.28), []),
              SimulationStep(AgentStatus(Recovered, 0.45), [ExitHelp]) ]
  {
  }

  /** A loop that mirrors the Python `for` over the samples. */
  method RunSimulationLoop(start: AgentStatus, samples: seq<real>, th: Thresholds) returns (steps: seq<SimulationStep>)
    ensures steps == RunSimulation(start, samples, th)
  {
    steps := [];
    var current := start;
    var i := 0;
    while i < |samples|
      invariant 0 <= i <= |samples|
      invariant steps + RunSimulation(current, samples[i..], th) == RunSimulation(start, samples, th)
    {
      var result := NextAgentStatus(AgentStatus(current.state, samples[i]), th);
      var step := SimulationStep(result.nextStatus, result.events);
      assert samples[i..][1..] == samples[i + 1..];
      assert RunSimulation(current, samples[i..], th) == [step] + RunSimulation(step.status, samples[i + 1..], th);
      steps := steps + [step];
      current := result.nextStatus;
      i := i + 1;
    }
    assert samples[i..] == [];
  }
}
