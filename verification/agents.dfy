/** The agent and environment records shared by every part of the rule engine
    (sandboxtown_v2/core/agent_state.py and environment_state.py). */
module Agents {

  /** The five behavioural regimes an agent can be in. */
  datatype AgentState = Stable | Loaded | HelpSeeking | Rest | Recovered

  /** An agent's regime together with its stability sample. The stability is
      nominally in [0,1] but nothing in the engine enforces that on inputs. */
  datatype AgentStatus = AgentStatus(state: AgentState, stability: real)

  /** The shared density setting regulated by the environment policy. */
  datatype EnvironmentState = Calm | Active | Dense

  /** The regimes of a population, in order. */
  function States(agents: seq<AgentStatus>): (r: seq<AgentState>)
    ensures |r| == |agents|
    ensures forall i :: 0 <= i < |r| ==> r[i] == agents[i].state
  {
    seq(|agents|, i requires 0 <= i < |agents| => agents[i].state)
  }
}
