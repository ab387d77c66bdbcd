/** The older, uncapped contagion pass (sandboxtown_v2/core/contagion_rules.py).
    The shift does not depend on how many agents are unstable. */
module ContagionRules {
  import opened Agents

  datatype ContagionConfig = ContagionConfig(
    enabled: bool,
    delta: real,
    denseMultiplier: real,
    calmMultiplier: real,
    clampMin: real,
    clampMax: real)

  /** The dataclass defaults. */
  const DefaultConfig := ContagionConfig(true, 0.05, 1.0, 0.5, 0.0, 1.0)

  /** This module's notion of "unstable": HELP_SEEKING or REST, so the
      STABLE, LOADED and RECOVERED regimes all count as stable. */
  predicate IsUnstableState(s: AgentState): (b: bool)
    ensures b <==> s !in {Stable, Loaded, Recovered}
  {
    s == HelpSeeking || s == Rest
  }

  /** `_clamp`: `lo` below `lo`, `hi` above `hi`, else `x`. The lower bound wins
      its check first, so with `lo > hi` a value below `lo` yields `lo`. */
  function Clamp(x: real, lo: real, hi: real): (r: real)
    ensures lo <= hi ==> lo <= r <= hi
    ensures lo <= x <= hi ==> r == x
    ensures x < lo ==> r == lo
    ensures lo <= x && hi < x ==> r == hi
    ensures r == x || r == lo || r == hi
  {
    if x < lo then lo else if x > hi then hi else x
  }

  function AnyUnstable(states: seq<AgentState>): (b: bool)
    ensures b <==> exists i :: 0 <= i < |states| && IsUnstableState(states[i])
  {
    if |states| == 0 then false else IsUnstableState(states[0]) || AnyUnstable(states[1..])
  }

  /** The shift: `delta` times the DENSE or the non-DENSE multiplier. */
  function Shift(cfg: ContagionConfig, env: EnvironmentState): real {
    cfg.delta * (if env == Dense then cfg.denseMultiplier else cfg.calmMultiplier)
  }

  /** The zip loop: it stops at the shorter of the two lists. */
  function Zip(raw: seq<real>, states: seq<AgentState>, cfg: ContagionConfig, shift: real): (out: seq<real>)
    ensures |out| == if |raw| < |states| then |raw| else |states|
    ensures forall i :: 0 <= i < |out| ==>
              out[i] == if IsUnstableState(states[i]) then Clamp(raw[i], cfg.clampMin, cfg.clampMax)
                        else Clamp(raw[i] - shift, cfg.clampMin, cfg.clampMax)
  {
    if |raw| == 0 || |states| == 0 then []
    else
      var v := if IsUnstableState(states[0]) then Clamp(raw[0], cfg.clampMin, cfg.clampMax)
               else Clamp(raw[0] - shift, cfg.clampMin, cfg.clampMax);
      [v] + Zip(raw[1..], states[1..], cfg, shift)
  }

  /** `apply_contagion` (v1). There is no length check. */
  function ApplyContagion(raw: seq<real>, states: seq<AgentState>, env: EnvironmentState, cfg: ContagionConfig)
    : (out: seq<real>)
    // disabled, or nobody unstable: the input itself
    ensures !cfg.enabled ==> out == raw
    ensures (forall i :: 0 <= i < |states| ==> !IsUnstableState(states[i])) ==> out == raw
    // otherwise the shorter length, unstable agents only clamped, others shifted then clamped
    ensures cfg.enabled && (exists i :: 0 <= i < |states| && IsUnstableState(states[i])) ==>
              && |out| == (if |raw| < |states| then |raw| else |states|)
              && forall i :: 0 <= i < |out| ==>
                   out[i] == if IsUnstableState(states[i]) then Clamp(raw[i], cfg.clampMin, cfg.clampMax)
                             else Clamp(raw[i] - Shift(cfg, env), cfg.clampMin, cfg.clampMax)
  {
    if !cfg.enabled then raw
    else if !AnyUnstable(states) then raw
    else Zip(raw, states, cfg, Shift(cfg, env))
  }

  /** The shift ignores how many agents are unstable: once any agent is,
      an agent's output depends only on its own value and regime, whatever
      the rest of the population looks like. */
  lemma ShiftIgnoresSourceCount(
    raw1: seq<real>, states1: seq<AgentState>, raw2: seq<real>, states2: seq<AgentState>,
    i: nat, j: nat, env: EnvironmentState, cfg: ContagionConfig)
    requires cfg.enabled
    requires AnyUnstable(states1) && AnyUnstable(states2)
    requires i < |raw1| && i < |states1| && j < |raw2| && j < |states2|
    requires raw1[i] == raw2[j] && states1[i] == states2[j]
    ensures ApplyContagion(raw1, states1, env, cfg)[i] == ApplyContagion(raw2, states2, env, cfg)[j]
  {
  }
}
