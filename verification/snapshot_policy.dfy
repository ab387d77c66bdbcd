/** The intent policies of the v0.4 snapshot (snapshots/v0_4_stable/policy_engine.py):
    a policy looks at an agent and the world and returns an intent (a
    desired zone and whether to rest). */
module SnapshotPolicy {
  import opened Results

  /** What a policy asks of an agent. */
  datatype Intent = Intent(desiredZone: Option<string>, shouldRest: bool)

  /** `Intent()`: no zone, no rest. */
  const EmptyIntent := Intent(None, false)

  /** The zone a resting agent is sent to. */
  const RestZone: string := "Rest"

  /** The world snapshot; no policy here reads it. */
  datatype WorldState = WorldState(dt: real)

  /** An agent's `state.load` attribute as the duck-typed lookup sees it:
      absent (or None), a number (an int, a float or a bool), or anything else. */
  datatype Load = NoLoad | Numeric(value: real) | NonNumeric

  /** An agent's `state`, when it has one that is not None. */
  datatype StateView = StateView(load: Load)

  datatype AgentView = AgentView(state: Option<StateView>)

  /** The load threshold `RestWhenLoadedPolicy` uses by default. */
  const DefaultLoadThreshold: real := 0.75

  datatype Policy = NullPolicy | RestWhenLoaded(loadThreshold: real) {

    /** The policy's decision for one agent. */
    function Step(agent: AgentView, world: WorldState): (i: Intent)
      ensures NullPolicy? ==> i == EmptyIntent
      ensures RestWhenLoaded? ==>
                (i == Intent(Some(RestZone), true) <==>
                   agent.state.Some? && agent.state.value.load.Numeric?
                   && agent.state.value.load.value >= loadThreshold)
      ensures i == EmptyIntent || i == Intent(Some(RestZone), true)
      ensures i.shouldRest <==> i.desiredZone == Some(RestZone)
    {
      match this
      case NullPolicy => EmptyIntent
      case RestWhenLoaded(threshold) =>
        if agent.state.Some? && agent.state.value.load.Numeric? && agent.state.value.load.value >= threshold
        then Intent(Some(RestZone), true)
        else EmptyIntent
    }
  }

  /** `RestWhenLoadedPolicy()` with its default threshold. */
  function NewRestWhenLoaded(): (p: Policy)
    ensures p.RestWhenLoaded? && p.loadThreshold == DefaultLoadThreshold
  {
    RestWhenLoaded(DefaultLoadThreshold)
  }

  /** The single-policy bundle. */
  datatype PolicyBundle = PolicyBundle(policy: Policy) {

    /** The bundle decides as its policy: a null bundle never asks for
        anything, a rest bundle sends the agent to rest exactly when its
        numeric load reaches the threshold. */
    function Step(agent: AgentView, world: WorldState): (i: Intent)
      ensures policy.NullPolicy? ==> i == EmptyIntent
      ensures i.shouldRest <==>
                policy.RestWhenLoaded? && agent.state.Some? && agent.state.value.load.Numeric?
                && agent.state.value.load.value >= policy.loadThreshold
      ensures i.shouldRest <==> i.desiredZone == Some(RestZone)
      ensures i == EmptyIntent || i == Intent(Some(RestZone), true)
      ensures !i.shouldRest ==> i == EmptyIntent
      ensures i == policy.Step(agent, world)
    {
      policy.Step(agent, world)
    }
  }

  /** `PolicyBundle(policy)`: no policy means the null policy. */
  function NewBundle(policy: Option<Policy>): (b: PolicyBundle)
    ensures policy.None? ==> b.policy == NullPolicy
    ensures policy.Some? ==> b.policy == policy.value
  {
    PolicyBundle(if policy.None? then NullPolicy else policy.value)
  }

  /** An empty bundle never asks for anything. */
  lemma EmptyBundleIsInert(agent: AgentView, world: WorldState)
    ensures NewBundle(None).Step(agent, world) == EmptyIntent
  {
  }

  /** Lowering the threshold only adds rest decisions: an agent sent to rest
      at one threshold is sent to rest at every lower one. */
  lemma LowerThresholdRestsMore(t1: real, t2: real, agent: AgentView, world: WorldState)
    requires t2 <= t1
    requires RestWhenLoaded(t1).Step(agent, world).shouldRest
    ensures RestWhenLoaded(t2).Step(agent, world).shouldRest
  {
  }

  /** The default threshold is inclusive: a load of exactly 0.75 rests, and
      missing or non-numeric loads never do. */
  lemma DefaultThresholdInclusive(world: WorldState)
    ensures NewRestWhenLoaded().Step(AgentView(Some(StateView(Numeric(0.75)))), world) == Intent(Some(RestZone), true)
    ensures NewRestWhenLoaded().Step(AgentView(Some(StateView(Numeric(0.74)))), world) == EmptyIntent
    ensures NewRestWhenLoaded().Step(AgentView(Some(StateView(NonNumeric))), world) == EmptyIntent
    ensures NewRestWhenLoaded().Step(AgentView(Some(StateView(NoLoad))), world) == EmptyIntent
    ensures NewRestWhenLoaded().Step(AgentView(None), world) == EmptyIntent
  {
  }
}
