/** The display-mode gate (sandboxtown_v2/core/mode_gate.py): VISUAL only for
    a STABLE agent at or above the visual floor. */
module ModeGate {
  import opened Results
  import opened Agents
  import opened StabilityRules

  datatype Mode = Headless | Visual

  datatype ModeEvent = ExitVisualToHeadless

  datatype ModeResult = ModeResult(mode: Mode, event: Option<ModeEvent>)

  /** `enforce_mode`. */
  function EnforceMode(currentMode: Mode, status: AgentStatus, th: Thresholds): (r: ModeResult)
    // HEADLESS is always permitted, silently
    ensures currentMode == Headless ==> r == ModeResult(Headless, None)
    // VISUAL survives exactly for a STABLE agent at or above the floor (inclusive)
    ensures currentMode == Visual ==>
              (r.mode == Visual <==> status.state == Stable && status.stability >= th.visualMinStable)
    // the gate never switches VISUAL on
    ensures r.mode == Visual ==> currentMode == Visual
    // an event exactly when the mode changed, and then it is the forced exit
    ensures r.event.Some? <==> r.mode != currentMode
    ensures r.event.Some? ==> r.event.value == ExitVisualToHeadless && r.mode == Headless
  {
    if currentMode == Visual && !(status.state == Stable && status.stability >= th.visualMinStable) then
      ModeResult(Headless, Some(ExitVisualToHeadless))
    else
      ModeResult(currentMode, None)
  }

  /** The gate is idempotent: re-applying it to its own output keeps the mode
      and emits nothing. */
  lemma EnforceModeIdempotent(currentMode: Mode, status: AgentStatus, th: Thresholds)
    ensures var once := EnforceMode(currentMode, status, th);
      EnforceMode(once.mode, status, th) == ModeResult(once.mode, None)
  {
  }
}
