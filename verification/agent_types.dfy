/** The workflow's input and result records and the step-budget default. */
module AgentTypes {
  import opened Base

  /** `maxSteps` is `None` when the caller leaves it out. */
  datatype AgentInput = AgentInput(prompt: string, maxSteps: Option<int>)

  /** One audit entry per executed tool call. `timestamp` is the workflow clock, an opaque value. */
  datatype ToolCallRecord = ToolCallRecord(toolName: string, input: Json, result: Json, timestamp: int)

  datatype AgentResult = AgentResult(finalResponse: string, toolCalls: seq<ToolCallRecord>, totalSteps: nat)

  const DefaultMaxSteps: int := 5

  /** The step budget `input.maxSteps || 5`: an absent or zero budget falls back to
      the default, any other number (negative ones included) is taken as given. */
  function EffectiveMaxSteps(requested: Option<int>): (m: int)
    ensures m != 0
    ensures requested.None? ==> m == DefaultMaxSteps
    ensures requested.Some? && requested.value == 0 ==> m == DefaultMaxSteps
    ensures requested.Some? && requested.value != 0 ==> m == requested.value
  {
    match requested
    case None => DefaultMaxSteps
    case Some(n) => if n != 0 then n else DefaultMaxSteps
  }
}
