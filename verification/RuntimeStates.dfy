/** The part of a turn's runtime state the tool protocol depends on. */
module RuntimeStates {
  class RuntimeState {
    /** `MAX_AGENT_TOOL_CALLS`; 0 disables the limit. */
    const toolLimit: nat
    var stopRequested: bool
    var toolCallCount: nat
    var pendingBudgetWarnings: seq<string>

    constructor (toolLimit: nat)
      ensures this.toolLimit == toolLimit && !stopRequested && toolCallCount == 0 && pendingBudgetWarnings == []
    {
      this.toolLimit := toolLimit;
      stopRequested, toolCallCount, pendingBudgetWarnings := false, 0, [];
    }

    predicate OverToolLimit()
      reads this
    {
      toolLimit > 0 && toolCallCount >= toolLimit
    }

    method RequestStop()
      modifies this`stopRequested
      ensures stopRequested
    {
      stopRequested := true;
    }

    /** Counts the call, or refuses it and asks the turn to stop. */
    method RecordToolCallBudget() returns (granted: bool)
      modifies this
      ensures granted <==> toolLimit == 0 || old(toolCallCount) < toolLimit
      ensures toolCallCount == old(toolCallCount) + if granted then 1 else 0
      ensures stopRequested == (old(stopRequested) || !granted)
    {
      if OverToolLimit() {
        RequestStop();
        return false;
      }
      toolCallCount := toolCallCount + 1;
      if * {
        pendingBudgetWarnings := pendingBudgetWarnings + ["tool_calls"];
      }
      return true;
    }
  }
}
