# SandboxTown rule engine — a Dafny model

This project models the deterministic core of SandboxTown, an agent sandbox in
which agents move between behavioural regimes (STABLE, LOADED, HELP_SEEKING,
REST, RECOVERED) in response to a stream of stability samples, while a shared
environment density (CALM, ACTIVE, DENSE) is regulated from the regimes of the
population. It also models the small lookup and factory modules of the motion
sandbox that sits next to it.

Modelled, one Dafny module per source file:

- `Agents`: the regime, status and environment records (`sandboxtown_v2/core/agent_state.py`, `environment_state.py`).
- `StabilityRules`: the hysteresis transition function `next_agent_status`, the validating `Thresholds` constructor, the two environment shift helpers and `apply_rules` (`sandboxtown_v2/core/stability_rules.py`).
- `Contagion`: the capped, source-count-scaled contagion pass (`sandboxtown_v2/core/contagion.py`).
- `ContagionRules`: the older, uncapped contagion pass (`sandboxtown_v2/core/contagion_rules.py`).
- `EnvironmentPolicy`: the class-based downshift regulator (`sandboxtown_v2/core/environment_policy.py`).
- `ModeGate`: the visual/headless gate (`sandboxtown_v2/core/mode_gate.py`).
- `HelpRouter`: HELP routing (`sandboxtown_v2/routing/help_router.py`).
- `SimulationRunner`: the single-agent runner (`sandboxtown_v2/core/simulation_runner.py`).
- `MultiAgentSimulation`: the multi-agent step orchestrator (`sandboxtown_v2/core/multi_agent_simulation.py`).
- `PolicyEngine`: the step hooks and the policy factory (`src/policy_engine.py`).
- `VariantPolicy`: the experiment-variant table (`src/policy.py`).
- `MotionProfiles`: the motion-profile registry (`src/profiles.py`).
- `BaselineProfiles`: the frozen v1 registry (`Behaviour_Library/v1_baseline/profiles.py`).
- `SnapshotPolicy`: the v0.4 intent policies (`snapshots/v0_4_stable/policy_engine.py`).
- `Results` and `Text` are support modules:
  - `Results` provides `Option` and `Result`. They stand for Python's `None` and for its raised exceptions.
  - `Text` provides the Python `str.strip()`, `lower()` and `upper()` that the name lookups rely on.

The modelling choices:

- Stability is a mathematical `real`.
- Every function is total. Each exception the Python code raises becomes an `Err` with its own constructor.
- Both orchestrators are written twice:
  - as recursion over the remaining samples or columns;
  - as a loop method that mirrors the Python `for` loop, proved equal to the recursion.

Behaviour of the code worth noting:

- No rule ever enters LOADED, and there is no LOADED event. LOADED becomes STABLE without an event.
- `next_agent_status` does not clamp the stability it passes through.
- The multi-agent upshift fires when no new regime is HELP_SEEKING or REST, so LOADED and RECOVERED agents count as stable there.
- The environment computed by `apply_rules` counts anything other than STABLE as unstable.
- The old contagion pass has no length check. It stops at the shorter of its two lists.
- A missing or empty variant name selects BASE, but a whitespace-only one does not: `or` sees a non-empty text, `strip()` then empties it, and the empty name is unknown.

## Model

| member | source | states |
|---|---|---|
| StabilityRules.MakeThresholds | sandboxtown_v2/core/stability_rules.py:50-82 | Thresholds are accepted iff every field is numeric, visual_min_stable and both rest values lie in [0,1] with rest_enter < rest_exit, and HELP is either disabled (both help values negative) or both help values lie in [0,1] with help_enter < help_exit; a non-numeric field is a TypeError naming the first such field, raised before any ValueError; an out-of-range visual floor is the first ValueError |
| StabilityRules.TransitionResult.Event | sandboxtown_v2/core/stability_rules.py:32-35 | no event iff the transition emitted none; otherwise the first emitted event |
| StabilityRules.HelpEnabled | sandboxtown_v2/core/stability_rules.py:85-86 | HELP is on iff at least one of help_enter and help_exit is non-negative |
| StabilityRules.IsUnstableState | sandboxtown_v2/core/stability_rules.py:97-98 | unstable iff LOADED, HELP_SEEKING, REST or RECOVERED, i.e. anything but STABLE |
| StabilityRules.NextAgentStatus | sandboxtown_v2/core/stability_rules.py:101-151 | the stability passes through unchanged; at most one event; an event only when the regime changes; the only silent change is LOADED to STABLE; nothing enters LOADED; entering HELP or REST always carries ENTER_HELP / ENTER_REST, and ENTER_HELP / ENTER_REST always come from outside that regime and land in it; EXIT_HELP, EXIT_REST and RECOVERED_TO_STABLE only leave their own regime for RECOVERED / STABLE; no environment event |
| StabilityRules.HelpIsSticky | sandboxtown_v2/core/stability_rules.py:108-115 | with HELP on, HELP_SEEKING leaves for RECOVERED with EXIT_HELP iff stability >= help_exit, otherwise stays silently, even below rest_enter |
| StabilityRules.HelpEntryPreemptsRest | sandboxtown_v2/core/stability_rules.py:117-122 | with HELP on, an agent outside HELP enters HELP iff stability <= help_enter (inclusive), with ENTER_HELP, before REST stickiness or REST entry is consulted |
| StabilityRules.RestExitInclusive | sandboxtown_v2/core/stability_rules.py:124-131 | when HELP does not pre-empt, REST leaves for RECOVERED with EXIT_REST iff stability >= rest_exit, otherwise stays silently |
| StabilityRules.RestEntryStrict | sandboxtown_v2/core/stability_rules.py:133-138 | outside HELP and REST, and when HELP does not pre-empt, REST is entered iff stability < rest_enter; exactly rest_enter does not enter |
| StabilityRules.RecoveredBecomesStable | sandboxtown_v2/core/stability_rules.py:140-145 | RECOVERED at or above the visual floor (and not claimed by HELP or REST) becomes STABLE with RECOVERED_TO_STABLE |
| StabilityRules.NoRuleKeepsStatus | sandboxtown_v2/core/stability_rules.py:151 | outside HELP and REST, with neither entered and neither floor rule applying, the status comes back unchanged with no event |
| StabilityRules.LoadedBecomesStableSilently | sandboxtown_v2/core/stability_rules.py:147-149 | LOADED at or above the visual floor (and not claimed by HELP or REST) becomes STABLE with no event |
| StabilityRules.HelpDisabledNeverSignalsHelp | sandboxtown_v2/core/stability_rules.py:85-151 | with both help values negative, ENTER_HELP and EXIT_HELP are never emitted, and a HELP_SEEKING agent leaves only by entering REST (below rest_enter), otherwise stays silently |
| StabilityRules.EnvironmentDownshiftIfNeeded | sandboxtown_v2/core/stability_rules.py:158-164 | the environment changes iff it is DENSE and some agent is unstable, then to CALM with ENV_DOWNSHIFT; an event iff a change |
| StabilityRules.EnvironmentUpshiftIfNeeded | sandboxtown_v2/core/stability_rules.py:167-173 | the environment changes iff it is CALM and all agents are stable, then to DENSE with ENV_UPSHIFT; an event iff a change |
| StabilityRules.AnyUnstable | sandboxtown_v2/core/stability_rules.py:215 | true iff some status is not STABLE |
| StabilityRules.AllStable | sandboxtown_v2/core/stability_rules.py:216 | true iff every status is STABLE (so true for none) |
| StabilityRules.NextStatuses | sandboxtown_v2/core/stability_rules.py:225-228 | same length and order as the input; element i is the transition of input i |
| StabilityRules.ApplyRules | sandboxtown_v2/core/stability_rules.py:196-232 | list in, list out of the same length and order with element i the transition of input i; DENSE with any pre-transition non-STABLE agent goes to CALM; CALM with all pre-transition agents STABLE goes to DENSE; DENSE with all STABLE stays DENSE, CALM with any non-STABLE stays CALM, and ACTIVE stays ACTIVE |
| StabilityRules.ApplyRulesSingle | sandboxtown_v2/core/stability_rules.py:207-231 | a single status in gives a single status out, its transition, with the environment shifted by that one agent's regime |
| StabilityRules.EmptyPopulationUpshifts | sandboxtown_v2/core/stability_rules.py:215-223 | an empty population counts as all-stable: CALM becomes DENSE |
| Contagion.Clamp01 | sandboxtown_v2/core/contagion.py:39-44 | the result lies in [0,1], equals the input inside [0,1], and otherwise is the nearer bound |
| Contagion.Clamp01Monotone | sandboxtown_v2/core/contagion.py:39-44 | clamping never reorders two values |
| Contagion.CountSources | sandboxtown_v2/core/contagion.py:70 | the source count is at most the population and is zero iff no agent is in a source regime |
| Contagion.Influence | sandboxtown_v2/core/contagion.py:74-77 | the influence is min(max_total_delta, delta * k * scale), with the DENSE scale only for DENSE |
| Contagion.InfluenceNonNegative | sandboxtown_v2/core/contagion.py:74-77 | with non-negative rate, scales and cap, the influence is non-negative |
| Contagion.Spread | sandboxtown_v2/core/contagion.py:79-92 | the loop keeps the length and applies the per-agent rule to each agent |
| Contagion.ApplyContagion | sandboxtown_v2/core/contagion.py:47-92 | disabled: a copy of the input, before any length check; enabled: an error iff the lengths differ; no source: the input unclamped; otherwise sources and (when gated) non-STABLE agents are only clamped, everyone else gets clamp01(raw - influence), all values in [0,1] |
| Contagion.ContagionOnlyLowers | sandboxtown_v2/core/contagion.py:79-92 | on the active path every output is at most the clamped input, and a source agent is never reduced |
| ContagionRules.Clamp | sandboxtown_v2/core/contagion_rules.py:61-66 | lo below lo, hi above hi, the value itself in between; inside [lo, hi] when lo <= hi |
| ContagionRules.IsUnstableState | sandboxtown_v2/core/contagion_rules.py:26-27 | unstable iff HELP_SEEKING or REST; STABLE, LOADED and RECOVERED count as stable |
| ContagionRules.AnyUnstable | sandboxtown_v2/core/contagion_rules.py:44 | true iff some regime is HELP_SEEKING or REST |
| ContagionRules.Zip | sandboxtown_v2/core/contagion_rules.py:51-58 | output length is the shorter input length; unstable agents are clamped, others shifted then clamped |
| ContagionRules.ApplyContagion | sandboxtown_v2/core/contagion_rules.py:31-58 | disabled or nobody unstable: the input itself; otherwise the shorter length, unstable agents clamped, all others lowered by delta times the DENSE or non-DENSE multiplier and clamped |
| ContagionRules.ShiftIgnoresSourceCount | sandboxtown_v2/core/contagion_rules.py:48-57 | once any agent is unstable, an agent's output depends only on its own value and regime, not on how many others are unstable |
| EnvironmentPolicy.Apply | sandboxtown_v2/core/environment_policy.py:17-26 | DENSE with an unstable agent gives CALM and ENV_DOWNSHIFT; DENSE otherwise stays silently; CALM and ACTIVE are returned unchanged without event |
| EnvironmentPolicy.AgreesWithDownshiftHelper | sandboxtown_v2/core/environment_policy.py:17-26 | the policy agrees with `environment_downshift_if_needed` on every input |
| EnvironmentPolicy.ApplyIdempotent | sandboxtown_v2/core/environment_policy.py:23-26 | applying the policy twice with the same flag lands where applying it once does |
| ModeGate.EnforceMode | sandboxtown_v2/core/mode_gate.py:20-28 | HEADLESS always stays silently; VISUAL survives iff the agent is STABLE at or above the visual floor; VISUAL out implies VISUAL in; an event iff the mode changed, and then it is EXIT_VISUAL_TO_HEADLESS |
| ModeGate.EnforceModeIdempotent | sandboxtown_v2/core/mode_gate.py:20-28 | re-applying the gate to its own output keeps the mode and emits nothing |
| HelpRouter.RouteHelp | sandboxtown_v2/routing/help_router.py:22-34 | non-HELP regimes get (NONE, false, no event); HELP_SEEKING gets (ENVIRONMENT, true, HELP_ROUTED_ENV); help is available iff the route is not NONE; peer and supervisor routes never occur |
| HelpRouter.RouteDependsOnlyOnState | sandboxtown_v2/routing/help_router.py:22-34 | the availability flags and the stability value never change the decision |
| SimulationRunner.RunSimulation | sandboxtown_v2/core/simulation_runner.py:33-66 | exactly one step per stability sample |
| SimulationRunner.StepAt | sandboxtown_v2/core/simulation_runner.py:47-64 | step i is the transition of sample i from the regime step i-1 produced (the start regime for step 0) |
| SimulationRunner.RunSimulationStepwise | sandboxtown_v2/core/simulation_runner.py:47-64 | every step is the transition of its sample from the previous step's regime |
| SimulationRunner.SimulationStep.Event | sandboxtown_v2/core/simulation_runner.py:22-30 | the `event` shim: None exactly when the step has no events, otherwise the first of them |
| SimulationRunner.AdvanceRecords | sandboxtown_v2/core/simulation_runner.py:22-30 | a step records the sample as stability and the transition's regime and events; its `event` is the transition's first event, and at most one event is stored |
| SimulationRunner.StartStabilityUnused | sandboxtown_v2/core/simulation_runner.py:48-52 | the start status's stability never influences the run |
| SimulationRunner.HelpStaysWhileBelowExit | sandboxtown_v2/core/simulation_runner.py:50-64 | a run starting in HELP with HELP on stays in HELP, silently, at every step while samples stay below help_exit |
| SimulationRunner.ReachingNeedsEntry | sandboxtown_v2/core/simulation_runner.py:50-64 | a run that reaches HELP_SEEKING or REST from outside it passes through a step carrying the matching entry event |
| SimulationRunner.ExitLeavesForRecovered | sandboxtown_v2/core/stability_rules.py:109-131 | a step reporting EXIT_HELP or EXIT_REST started in that regime and ends in RECOVERED |
| SimulationRunner.ExitNeedsReentry | sandboxtown_v2/core/simulation_runner.py:50-64 | between two exits from the same sticky regime the run has an entry into it |
| SimulationRunner.ExitHelpNeedsReentry | sandboxtown_v2/core/simulation_runner.py:50-64 | between two EXIT_HELP steps there is an ENTER_HELP step |
| SimulationRunner.ExitRestNeedsReentry | sandboxtown_v2/core/simulation_runner.py:50-64 | between two EXIT_REST steps there is an ENTER_REST step |
| SimulationRunner.HelpCycleScenario | sandboxtown_v2/tests/test_simulation_runner.py:16-28 | LOADED@0.5 with samples 0.25, 0.28, 0.45 enters HELP, holds it silently, then exits to RECOVERED with EXIT_HELP |
| SimulationRunner.RunSimulationLoop | sandboxtown_v2/core/simulation_runner.py:33-66 | the loop computes exactly the recursive run |
| MultiAgentSimulation.IsUnstable | sandboxtown_v2/core/multi_agent_simulation.py:38-40 | unstable iff HELP_SEEKING or REST; every such regime is also unstable for the transition engine, not conversely |
| MultiAgentSimulation.AnyUnstable | sandboxtown_v2/core/multi_agent_simulation.py:38-40 | true iff some agent is HELP_SEEKING or REST |
| MultiAgentSimulation.EnvironmentUpshiftIfNeeded | sandboxtown_v2/core/multi_agent_simulation.py:43-56 | CALM with all agents stable gives DENSE and ENV_UPSHIFT; anything else is returned silently |
| MultiAgentSimulation.UpshiftAgreesWithRulesHelper | sandboxtown_v2/core/multi_agent_simulation.py:43-56 | the local upshift agrees with the helper in the transition-engine module on every input |
| MultiAgentSimulation.RegulateEnvironment | sandboxtown_v2/core/multi_agent_simulation.py:128-135 | DENSE with any new HELP/REST agent gives CALM and ENV_DOWNSHIFT; CALM with none gives DENSE and ENV_UPSHIFT; DENSE with none stays DENSE silently; CALM with one stays CALM silently; ACTIVE stays silently; an event iff a change; ACTIVE is neither produced nor left |
| MultiAgentSimulation.Column | sandboxtown_v2/core/multi_agent_simulation.py:108 | the step's raw inputs: one per agent, agent i's sample at step t |
| MultiAgentSimulation.Columns | sandboxtown_v2/core/multi_agent_simulation.py:103-108 | one column per remaining step, each with one input per agent |
| MultiAgentSimulation.ColumnsAt | sandboxtown_v2/core/multi_agent_simulation.py:103-108 | column k holds every agent i's sample at step t+k |
| MultiAgentSimulation.ColumnIsColumnsAt | sandboxtown_v2/core/multi_agent_simulation.py:103-108 | the k-th of all the columns is the column of step k |
| MultiAgentSimulation.StepInputs | sandboxtown_v2/core/multi_agent_simulation.py:107-119 | contagion runs only when a configuration is given and enabled, on the pre-transition regimes and the environment before the step; otherwise the raw inputs are used |
| MultiAgentSimulation.Transitions | sandboxtown_v2/core/multi_agent_simulation.py:121-126 | agent i's transition keeps its previous regime and takes input i |
| MultiAgentSimulation.StepOnce | sandboxtown_v2/core/multi_agent_simulation.py:103-146 | a step holds one status and one event per agent, and its environment and event are the regulation of the previous environment from the new regimes |
| MultiAgentSimulation.StepOnceSpec | sandboxtown_v2/core/multi_agent_simulation.py:121-135 | agent i's new status and event are the transition of its previous regime with its input, and the environment is regulated from the new regimes |
| MultiAgentSimulation.StepOf | sandboxtown_v2/core/multi_agent_simulation.py:103-146 | on a column as wide as the population the loop body is one step, and it keeps the population's width |
| MultiAgentSimulation.RunWith | sandboxtown_v2/core/multi_agent_simulation.py:98-148 | one step per column |
| MultiAgentSimulation.RunWithAt | sandboxtown_v2/core/multi_agent_simulation.py:137-148 | step k of the loop is the body applied to the previous step's statuses and environment and column k |
| MultiAgentSimulation.RunWithWidth | sandboxtown_v2/core/multi_agent_simulation.py:103-148 | a body that keeps the population's width keeps it at every step of the loop |
| MultiAgentSimulation.RunWithKeepsActive | sandboxtown_v2/core/multi_agent_simulation.py:98-148 | a body that keeps the environment ACTIVE exactly when it was ACTIVE does so at every step of the loop |
| MultiAgentSimulation.RunFrom | sandboxtown_v2/core/multi_agent_simulation.py:98-148 | one step per column, each with one status and one event per agent |
| MultiAgentSimulation.RunMultiAgentSimulation | sandboxtown_v2/core/multi_agent_simulation.py:59-150 | missing agents or sequences, a sequence count different from the agent count, and unequal sequence lengths are the three errors; otherwise the result has len(sequences[0]) steps (0 without agents), each with N statuses and N events |
| MultiAgentSimulation.RunMultiAgentSimulationIsRunFrom | sandboxtown_v2/core/multi_agent_simulation.py:84-148 | a call with one equal-length sequence per agent succeeds with the step loop over all the columns, starting from the given environment, or DENSE when none is given |
| MultiAgentSimulation.RunMultiAgentSimulationAt | sandboxtown_v2/core/multi_agent_simulation.py:89-148 | in such a call, step k is one loop body on the previous step's statuses and environment (the given agents and the start environment, DENSE by default, for step 0) and every agent's sample k |
| MultiAgentSimulation.RunFromAt | sandboxtown_v2/core/multi_agent_simulation.py:137-148 | step k is the loop body applied to the previous step's statuses (replaced wholesale), its recorded environment, and step k's inputs |
| MultiAgentSimulation.StepKeepsActive | sandboxtown_v2/core/multi_agent_simulation.py:128-137 | one step leaves the environment ACTIVE iff it was ACTIVE |
| MultiAgentSimulation.ActiveIsInert | sandboxtown_v2/core/multi_agent_simulation.py:128-135 | ACTIVE is never produced and never left at any step of a run |
| MultiAgentSimulation.UpshiftScenario | sandboxtown_v2/tests/test_enviroment_upshift.py:16-35 | two STABLE agents at 0.9 starting CALM upshift to DENSE with ENV_UPSHIFT at the first step |
| MultiAgentSimulation.UpshiftStep | sandboxtown_v2/tests/test_enviroment_upshift.py:16-35 | the step of that scenario upshifts |
| MultiAgentSimulation.RunMultiAgentLoop | sandboxtown_v2/core/multi_agent_simulation.py:78-150 | the validating loop computes exactly the recursive run, errors included |
| MultiAgentSimulation.StepLoop | sandboxtown_v2/core/multi_agent_simulation.py:98-148 | the step loop computes exactly the recursive run over the columns |
| PolicyEngine.Bump | src/policy_engine.py:28 | the key is added if missing, its count goes up by one from 0 when absent, every other key keeps its value |
| PolicyEngine.Policy.BeforeStep | src/policy_engine.py:15-28 | the null hook leaves the context unchanged; the trace hook adds policy_hits_before if missing and raises it by one; no other counter moves |
| PolicyEngine.Policy.AfterStep | src/policy_engine.py:18-31 | the null hook leaves the context unchanged; the trace hook adds policy_hits_after if missing and raises it by one; no other counter moves |
| PolicyEngine.PolicyBundle.BeforeStep | src/policy_engine.py:39-40 | the bundle forwards the hook once: a traced bundle adds policy_hits_before if missing and raises it by one, while every other key stays with its value and no key is removed; a null bundle changes nothing |
| PolicyEngine.PolicyBundle.AfterStep | src/policy_engine.py:42-43 | the bundle forwards the hook once: a traced bundle adds policy_hits_after if missing and raises it by one, while every other key stays with its value and no key is removed; a null bundle changes nothing |
| PolicyEngine.MakePolicy | src/policy_engine.py:46-56 | the null policy iff the name is missing, empty, or none/null/off in any case; the tracing policy iff it is trace/debug in any case; every other name is an error naming it |
| PolicyEngine.MakePolicyIgnoresCase | src/policy_engine.py:50-53 | a name and its lower-cased form select the same policy, or both fail |
| PolicyEngine.PaddedNameRejected | src/policy_engine.py:50-56 | names are not stripped: " trace" is an unknown policy |
| PolicyEngine.TraceCountsBeforeHooks | src/policy_engine.py:27-28 | n tracing before-hooks raise policy_hits_before by exactly n and leave every other counter alone; null hooks leave the context as it was |
| VariantPolicy.ChangedKnobs | src/policy.py:6-24 | a knob is in the set iff it differs from its dataclass default |
| VariantPolicy.Lookup | src/policy.py:30-59 | every entry carries a run tag; BASE and unknown names get the defaults; an unknown name is tagged with its own lower-cased form |
| VariantPolicy.LookupTaggedWithLowerName | src/policy.py:30-59 | every entry, BASE and the six named variants included, is tagged with its name lower-cased |
| VariantPolicy.LookupMovesOneKnob | src/policy.py:34-56 | each of the six named variants moves exactly its one knob away from the defaults; BASE and unknown names move none |
| VariantPolicy.GetPolicy | src/policy.py:27-59 | never fails; a named variant (matched after strip and upper-casing) moves exactly its one knob, every other name none; a missing or empty name is BASE, tagged "base"; the result is always tagged |
| VariantPolicy.NormalizeIgnoresCase | src/policy.py:28 | a name and its lower-cased form normalise alike |
| VariantPolicy.NormalizeIgnoresPadding | src/policy.py:28 | for a non-empty name, one more leading or trailing whitespace character does not change the normalised name |
| VariantPolicy.BlankNameIsUnknown | src/policy.py:28-59 | a whitespace-only name is not BASE: it strips to the empty name, which is unknown and gets the defaults tagged "" |
| VariantPolicy.BaseIsDefaults | src/policy.py:30-32 | BASE is the defaults tagged "base" |
| VariantPolicy.MissingNameIsBase | src/policy.py:28 | a missing and an empty name both normalise to BASE |
| VariantPolicy.NearMissFallsBack | src/policy.py:58-59 | "P2A_SPARROW_ANT_COG" is unknown and falls back to the defaults tagged with its lower-cased self |
| MotionProfiles.Select | src/profiles.py:138-146 | a profile iff the id is fish, bird, ant_fast or ant_slow; the model is "fish" iff the id is fish or bird, and "ant" otherwise |
| MotionProfiles.SelectIsRegistryLookup | src/profiles.py:138-146 | the id chain agrees with the four-entry registry on every id |
| MotionProfiles.GetProfile | src/profiles.py:136-146 | success iff the normalised id is registered, with that profile; otherwise an error naming the original id; registered models are "fish" or "ant" |
| MotionProfiles.ProfilesOrdered | src/profiles.py:20-133 | the defaults and all four profiles keep the commit, fish_commit, fish_commit_cooldown and fish_pause pairs ordered |
| Text.StripSpec | src/profiles.py:137 | `strip()` returns an infix of its input and drops only whitespace before and after it |
| MotionProfiles.NormalizeIdIgnoresCase | src/profiles.py:137 | an id and its lower-cased form normalise alike |
| MotionProfiles.NormalizeIdIgnoresPadding | src/profiles.py:137 | one more leading or trailing whitespace character does not change the normalised id |
| MotionProfiles.MissingIdRejected | src/profiles.py:137-146 | a missing id is an error |
| BaselineProfiles.GetProfile | Behaviour_Library/v1_baseline/profiles.py:154-163 | success iff the name is exactly one of the four keys, with its registry entry; otherwise a KeyError naming it; models are "ant" or "fish", "fish" only for the fish key; every pair ordered |
| BaselineProfiles.DefaultsOrdered | Behaviour_Library/v1_baseline/profiles.py:24-49 | the dataclass defaults keep every min/max pair ordered whatever the required fields |
| BaselineProfiles.LookupIsExact | Behaviour_Library/v1_baseline/profiles.py:154-163 | "Fish" and " fish" are missing keys; "bird" is registered on the ant engine |
| SnapshotPolicy.Policy.Step | snapshots/v0_4_stable/policy_engine.py:40-59 | the null policy returns the empty intent; the rest policy returns ("Rest", true) iff the load is numeric and at least the threshold (inclusive), else the empty intent; should_rest iff the zone is "Rest" |
| SnapshotPolicy.NewRestWhenLoaded | snapshots/v0_4_stable/policy_engine.py:51-52 | the default threshold is 0.75 |
| SnapshotPolicy.PolicyBundle.Step | snapshots/v0_4_stable/policy_engine.py:73-74 | the bundle returns its policy's intent: a null bundle asks for nothing; any bundle sends the agent to rest, always to the Rest zone, exactly when it holds a rest policy and the agent's numeric load reaches the threshold, and otherwise returns the empty intent |
| SnapshotPolicy.NewBundle | snapshots/v0_4_stable/policy_engine.py:70-71 | no policy means the null policy; otherwise the given one |
| SnapshotPolicy.EmptyBundleIsInert | snapshots/v0_4_stable/policy_engine.py:70-74 | an empty bundle never asks for anything |
| SnapshotPolicy.LowerThresholdRestsMore | snapshots/v0_4_stable/policy_engine.py:54-59 | an agent sent to rest at one threshold is sent to rest at every lower one |
| SnapshotPolicy.DefaultThresholdInclusive | snapshots/v0_4_stable/policy_engine.py:51-59 | a load of exactly 0.75 rests, 0.74 does not, and missing state, missing load or non-numeric load never rest |

## Left out

- Floating point: stability, rates and thresholds are exact reals, so NaN, infinities and rounding are not modelled.
- Text.Lower / Text.Upper: only ASCII letters change case, whereas Python's `lower()` and `upper()` also map other Unicode letters.
- Python dispatch and argument parsing are not modelled:
  - `apply_rules` picks single or list by `isinstance`; the model has two functions.
  - `run_multi_agent_simulation` reads `*args`/`**kwargs`; the model has explicit parameters with the thresholds required.
  - The `start_env` alias for `start_environment` is not modelled.
- The `agent` and `world` arguments of the src policy hooks are never read, so the model drops them. The hook context is restricted to integer counters; other value types in the dictionary are not modelled.
- SnapshotPolicy.Policy.Step: the `getattr` lookup of `agent.state.load` becomes an explicit `Load` value. A Python `bool` load counts as numeric (as `isinstance(True, int)` does), and the caller must map it to 1.0 or 0.0.
- ContagionRules.ApplyContagion: Python returns the very same list object when disabled or when nobody is unstable. The model can only state value equality, because object identity has no counterpart in Dafny.
- Contagion.ContagionOnlyLowers: also requires `max_total_delta >= 0`, which the source comment does not mention. With a negative cap the influence is negative and contagion would raise values.
- `TransitionResult.event` and `SimulationStep.event` are modelled as `Event()`. The filtering of `None` events is vacuous, because the event type has no `None`.
- Several Python events are plain strings ("ENV_UPSHIFT" in the multi-agent loop, "ENV_DOWNSHIFT" in the environment policy). They are modelled by the matching event constructors, which Python's string-enum equality makes equal to them.
- MultiAgentSimulation.RunMultiAgentSimulation: an explicit `start_environment=None` is read as a missing argument and so as DENSE. In Python `kwargs.get` returns that None, and the run then carries None as its environment with no environment event; `Option<EnvironmentState>` cannot tell the two apart.
- `MultiAgentSimResult` is a list wrapper. It is modelled as the sequence of steps.
- sandboxtown_v2/core/hysteresis.py and sandboxtown_v2/core/__init__.py only re-export, so they have no model of their own.
- Left out as I/O, randomness or drivers, not rule logic:
  - the pygame motion simulations;
  - the batch runner and the telemetry analysis scripts;
  - the telemetry CSV sink;
  - the headless demo driver.
