/** HELP routing (sandboxtown_v2/routing/help_router.py). Only the environment
    route is live; the peer and supervisor routes are stubs. */
module HelpRouter {
  import opened Results
  import opened Agents

  /** `HelpRoute`; `NoRoute` is the Python member `NONE`. */
  datatype HelpRoute = Environment | Peer | Supervisor | NoRoute

  datatype HelpEvent = HelpRoutedEnv

  datatype HelpDecision = HelpDecision(route: HelpRoute, helpAvailable: bool, event: Option<HelpEvent>)

  /** `route_help`. */
  function RouteHelp(status: AgentStatus, peerAvailable: bool, supervisorAvailable: bool): (d: HelpDecision)
    ensures status.state != HelpSeeking ==> d == HelpDecision(NoRoute, false, None)
    ensures status.state == HelpSeeking ==> d == HelpDecision(Environment, true, Some(HelpRoutedEnv))
    ensures d.helpAvailable <==> d.route != NoRoute
    ensures d.event.Some? <==> d.helpAvailable
    ensures d.route != Peer && d.route != Supervisor
  {
    if status.state != HelpSeeking then HelpDecision(NoRoute, false, None)
    else HelpDecision(Environment, true, Some(HelpRoutedEnv))
  }

  /** Only the regime matters: the availability flags and the stability value
      never change the decision. */
  lemma RouteDependsOnlyOnState(s: AgentState, x: real, y: real, p1: bool, p2: bool, q1: bool, q2: bool)
    ensures RouteHelp(AgentStatus(s, x), p1, q1) == RouteHelp(AgentStatus(s, y), p2, q2)
  {
  }
}
