/** The batch workflow `aiAgentWorkflow`: the shared step loop, then, when the loop
    produced no final response, one summarisation call over the accumulated history. */
module BatchAgent {
  import opened Base
  import opened Messages
  import opened AgentTypes
  import opened StepLoop

  /** The prompt of the fallback call made after a loop without a final response. */
  const SummaryPrompt: string := "Please provide a final response based on the tool results."

  /** A finished run: the workflow's return value, every model call it made in order,
      and the phases its progress query showed. */
  datatype Run = Run(result: AgentResult, requests: seq<LlmRequest>, progress: seq<Phase>)

  /** The whole workflow. The summarisation call is the model call numbered after the
      loop's calls, and it passes the history as it stands, even when it is empty. */
  function RunAgent(o: Oracle, input: AgentInput): (run: Run)
    ensures var m := EffectiveMaxSteps(input.maxSteps);
      var n := run.result.totalSteps;
      && (m >= 1 ==> 1 <= n <= m)
      && (m <= 0 ==> n == 0)
      && |run.requests| == (if Answered(o, n) then n else n + 1)
      && run.result.finalResponse == (if Answered(o, n) then o.llm(n - 1).text else o.llm(n).text)
      && |run.progress| >= 2
      && run.progress[0] == Starting
      && run.progress[|run.progress| - 1] == Completed
      && (run.progress[|run.progress| - 2] == GeneratingFinal <==> !Answered(o, n))
  {
    var loop := RunLoop(o, input);
    RunLoopPhases(o, input);
    if loop.finalResponse == "" then
      Run(AgentResult(o.llm(|loop.requests|).text, loop.records, loop.stepCount),
          loop.requests + [LlmRequest(SummaryPrompt, Some(loop.history))],
          loop.progress + [GeneratingFinal, Completed])
    else
      Run(AgentResult(loop.finalResponse, loop.records, loop.stepCount),
          loop.requests,
          loop.progress + [Completed])
  }

  /** The loop's calls come first, each with the history of the rounds before it;
      the summarisation call, when made, carries the summary prompt and the complete
      history; the records are one per executed tool call across all rounds. */
  lemma RunAgentTranscript(o: Oracle, input: AgentInput)
    ensures var run := RunAgent(o, input);
      var n := run.result.totalSteps;
      && n <= |run.requests|
      && (forall i :: 0 <= i < n ==> run.requests[i] == Request(input.prompt, ExpectedHistory(o, 0, i, 0)))
      && (!Answered(o, n) ==> run.requests[n] == LlmRequest(SummaryPrompt, Some(ExpectedHistory(o, 0, n, 0))))
      && run.result.toolCalls == ExpectedRecords(o, 0, n, 0)
  {
    RunLoopTranscript(o, input);
    RunLoopRequests(o, input);
  }

  /** A first reply without tool calls and with text answers the prompt directly:
      one model call, no tool records, one step. */
  lemma FirstAnswerWithoutTools(o: Oracle, input: AgentInput)
    requires EffectiveMaxSteps(input.maxSteps) >= 1
    requires |o.llm(0).toolCalls| == 0 && o.llm(0).text != ""
    ensures var run := RunAgent(o, input);
      && run.result == AgentResult(o.llm(0).text, [], 1)
      && run.requests == [LlmRequest(input.prompt, None)]
  {
    var run := RunAgent(o, input);
    RunAgentTranscript(o, input);
    assert ExpectedRecords(o, 0, 1, 0) == RecordsFor(o, o.llm(0).toolCalls, 0) + ExpectedRecords(o, 1, 0, 0);
    assert ExpectedHistory(o, 0, 0, 0) == [];
  }

  /** A first reply without tool calls and without text still ends the loop, and the
      empty answer makes the workflow ask for a summary over the empty history, which
      the model activity turns into a conversation holding only the summary prompt. */
  lemma EmptyFirstAnswerIsSummarised(o: Oracle, input: AgentInput)
    requires EffectiveMaxSteps(input.maxSteps) >= 1
    requires |o.llm(0).toolCalls| == 0 && o.llm(0).text == ""
    ensures var run := RunAgent(o, input);
      && run.result == AgentResult(o.llm(1).text, [], 1)
      && run.requests == [LlmRequest(input.prompt, None), LlmRequest(SummaryPrompt, Some([]))]
      && ModelConversation(run.requests[1]) == [PromptMessage(SummaryPrompt)]
  {
    var run := RunAgent(o, input);
    RunAgentTranscript(o, input);
    assert ExpectedRecords(o, 0, 1, 0) == RecordsFor(o, o.llm(0).toolCalls, 0) + ExpectedRecords(o, 1, 0, 0);
    assert ExpectedHistory(o, 0, 1, 0) == StepMessages(o, 0, 0) + ExpectedHistory(o, 1, 0, 0);
    assert ExpectedHistory(o, 0, 0, 0) == [];
  }
}
