/** The class-based environment regulator (sandboxtown_v2/core/environment_policy.py).
    It only ever downshifts. */
module EnvironmentPolicy {
  import opened Results
  import opened Agents
  import opened StabilityRules

  /** `EnvironmentPolicy.apply`. The Python event is the plain string
      "ENV_DOWNSHIFT", equal to the `EnvDownshift` tag. */
  function Apply(envState: EnvironmentState, anyAgentUnstable: bool): (r: EnvShift)
    ensures envState == Dense && anyAgentUnstable ==> r == EnvShift(Calm, Some(EnvDownshift))
    ensures envState == Dense && !anyAgentUnstable ==> r == EnvShift(Dense, None)
    ensures envState != Dense ==> r == EnvShift(envState, None)
  {
    if envState == Dense && anyAgentUnstable then EnvShift(Calm, Some(EnvDownshift))
    else EnvShift(envState, None)
  }

  /** The policy and the `environment_downshift_if_needed` helper agree on every input. */
  lemma AgreesWithDownshiftHelper(envState: EnvironmentState, anyAgentUnstable: bool)
    ensures Apply(envState, anyAgentUnstable) == EnvironmentDownshiftIfNeeded(envState, anyAgentUnstable)
  {
  }

  /** Applying the policy twice with the same flag lands where applying it once does. */
  lemma ApplyIdempotent(envState: EnvironmentState, anyAgentUnstable: bool)
    ensures var once := Apply(envState, anyAgentUnstable);
      Apply(once.env, anyAgentUnstable).env == once.env
  {
  }
}
