/** The capped, source-count-scaled contagion pass the multi-agent
    orchestrator runs before transitions (sandboxtown_v2/core/contagion.py). */
module Contagion {
  import opened Results
  import opened Agents

  /** Contagion settings; `sourceStates` is the set of broadcasting regimes. */
  datatype ContagionConfig = ContagionConfig(
    enabled: bool,
    delta: real,
    maxTotalDelta: real,
    denseScale: real,
    calmScale: real,
    sourceStates: set<AgentState>,
    onlyAffectsStable: bool)

  /** The dataclass defaults. */
  const DefaultConfig := ContagionConfig(true, 0.05, 0.30, 1.0, 0.5, {HelpSeeking, Rest}, false)

  datatype ContagionError = LengthMismatch

  /** `_clamp01`. */
  function Clamp01(x: real): (r: real)
    ensures 0.0 <= r <= 1.0
    ensures 0.0 <= x <= 1.0 ==> r == x
    ensures r != x ==> (x < 0.0 && r == 0.0) || (x > 1.0 && r == 1.0)
  {
    if x < 0.0 then 0.0 else if x > 1.0 then 1.0 else x
  }

  /** Clamping never reorders two values. */
  lemma Clamp01Monotone(x: real, y: real)
    requires x <= y
    ensures Clamp01(x) <= Clamp01(y)
  {
  }

  /** The number of agents whose current regime is a source. */
  function CountSources(states: seq<AgentState>, sources: set<AgentState>): (k: nat)
    ensures k <= |states|
    ensures k == 0 <==> forall i :: 0 <= i < |states| ==> states[i] !in sources
  {
    if |states| == 0 then 0
    else (if states[0] in sources then 1 else 0) + CountSources(states[1..], sources)
  }

  /** DENSE uses the dense scale; CALM and ACTIVE both use the calm scale. */
  function Scale(cfg: ContagionConfig, env: EnvironmentState): real {
    if env == Dense then cfg.denseScale else cfg.calmScale
  }

  /** The total reduction, `min(max_total_delta, delta * k * scale)`. */
  function Influence(cfg: ContagionConfig, env: EnvironmentState, k: nat): (inf: real)
    ensures inf <= cfg.maxTotalDelta
    ensures inf <= cfg.delta * (k as real) * Scale(cfg, env)
    ensures inf == cfg.maxTotalDelta || inf == cfg.delta * (k as real) * Scale(cfg, env)
  {
    var total := cfg.delta * (k as real) * Scale(cfg, env);
    if total > cfg.maxTotalDelta then cfg.maxTotalDelta else total
  }

  /** With non-negative rates, scales and cap the influence is non-negative. */
  lemma InfluenceNonNegative(cfg: ContagionConfig, env: EnvironmentState, k: nat)
    requires cfg.delta >= 0.0 && cfg.denseScale >= 0.0 && cfg.calmScale >= 0.0 && cfg.maxTotalDelta >= 0.0
    ensures Influence(cfg, env, k) >= 0.0
  {
    var d, s := cfg.delta * (k as real), Scale(cfg, env);
    assert d >= 0.0;
    assert d * s >= 0.0;
  }

  /** The per-agent rule: sources and (when gated) non-STABLE agents are only
      clamped; every other agent is lowered by the influence, then clamped. */
  function Adjust(raw: real, st: AgentState, cfg: ContagionConfig, influence: real): real {
    if st in cfg.sourceStates then Clamp01(raw)
    else if cfg.onlyAffectsStable && st != Stable then Clamp01(raw)
    else Clamp01(raw - influence)
  }

  /** The zip loop of `apply_contagion`. */
  function Spread(raw: seq<real>, states: seq<AgentState>, cfg: ContagionConfig, influence: real): (out: seq<real>)
    requires |raw| == |states|
    ensures |out| == |raw|
    ensures forall i :: 0 <= i < |out| ==> out[i] == Adjust(raw[i], states[i], cfg, influence)
  {
    if |raw| == 0 then []
    else [Adjust(raw[0], states[0], cfg, influence)] + Spread(raw[1..], states[1..], cfg, influence)
  }

  /** `apply_contagion`. */
  function ApplyContagion(raw: seq<real>, states: seq<AgentState>, env: EnvironmentState, cfg: ContagionConfig)
    : (r: Result<seq<real>, ContagionError>)
    // disabled: a copy of the input, checked before the lengths
    ensures !cfg.enabled ==> r == Ok(raw)
    // enabled: the lengths must agree
    ensures cfg.enabled ==> (r.Err? <==> |raw| != |states|)
    ensures r.Err? ==> r.error == LengthMismatch
    ensures r.Ok? ==> |r.value| == |raw|
    // no current source: the input comes back unclamped
    ensures cfg.enabled && |raw| == |states| && (forall i :: 0 <= i < |states| ==> states[i] !in cfg.sourceStates)
            ==> r == Ok(raw)
    // otherwise every value is the per-agent rule, and lies in [0,1]
    ensures cfg.enabled && |raw| == |states| && (exists i :: 0 <= i < |states| && states[i] in cfg.sourceStates)
            ==> r.Ok? && forall i :: 0 <= i < |raw| ==>
                  && r.value[i] == Adjust(raw[i], states[i], cfg, Influence(cfg, env, CountSources(states, cfg.sourceStates)))
                  && 0.0 <= r.value[i] <= 1.0
  {
    if !cfg.enabled then Ok(raw)
    else if |raw| != |states| then Err(LengthMismatch)
    else
      var k := CountSources(states, cfg.sourceStates);
      if k == 0 then Ok(raw)
      else Ok(Spread(raw, states, cfg, Influence(cfg, env, k)))
  }

  /** Contagion only ever lowers: with non-negative rates, scales and cap,
      every output on the active path is at most the clamped input, and a
      source agent is never reduced. */
  lemma ContagionOnlyLowers(raw: seq<real>, states: seq<AgentState>, env: EnvironmentState, cfg: ContagionConfig)
    requires cfg.enabled && |raw| == |states|
    requires cfg.delta >= 0.0 && cfg.denseScale >= 0.0 && cfg.calmScale >= 0.0 && cfg.maxTotalDelta >= 0.0
    requires exists i :: 0 <= i < |states| && states[i] in cfg.sourceStates
    ensures var r := ApplyContagion(raw, states, env, cfg);
      r.Ok? && forall i :: 0 <= i < |raw| ==>
        && r.value[i] <= Clamp01(raw[i])
        && (states[i] in cfg.sourceStates ==> r.value[i] == Clamp01(raw[i]))
  {
    var k := CountSources(states, cfg.sourceStates);
    var inf := Influence(cfg, env, k);
    InfluenceNonNegative(cfg, env, k);
    var r := ApplyContagion(raw, states, env, cfg);
    forall i | 0 <= i < |raw|
      ensures r.value[i] <= Clamp01(raw[i])
    {
      Clamp01Monotone(raw[i] - inf, raw[i]);
    }
  }
}
