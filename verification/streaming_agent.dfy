/** The streaming workflow `streamingAiAgentWorkflow`: the same step loop, then always
    one streaming model call whose tokens reach the workflow as `streamToken`
    signals. The signal handler appends each token to the queryable `streamingText`
    as it arrives: there is no offset, sequence number or duplicate check. */
module StreamingAgent {
  import opened Base
  import opened Messages
  import opened AgentTypes
  import opened StepLoop
  import BatchAgent

  /** What the streaming model activity produces: the tokens it signals back, in
      delivery order, and the text it returns. The activity is not part of this
      model, so the two are independent oracle values. */
  datatype StreamReply = StreamReply(tokens: seq<string>, text: string)

  /** The `streamToken` signal handler: the token is appended, unconditionally. */
  function OnStreamToken(text: string, token: string): (r: string)
    ensures |r| == |text| + |token|
    ensures IsPrefix(text, r) && r[|text|..] == token
  {
    text + token
  }

  /** The values `streamingText` takes while `tokens` are delivered one by one
      starting from `text`: entry i is the value after i deliveries. */
  function DeliveryLog(text: string, tokens: seq<string>): (log: seq<string>)
    ensures |log| == |tokens| + 1
    ensures forall i {:trigger log[i]} :: 0 <= i < |log| ==> log[i] == text + Concat(tokens[..i])
    decreases |tokens|
  {
    if |tokens| == 0 then [text]
    else
      var rest := DeliveryLog(OnStreamToken(text, tokens[0]), tokens[1..]);
      assert forall i :: 1 <= i <= |tokens| ==> tokens[..i] == [tokens[0]] + tokens[1..][..i - 1];
      ConcatPrepend(tokens);
      [text] + rest
  }

  lemma ConcatPrepend(tokens: seq<string>)
    requires |tokens| > 0
    ensures forall i :: 1 <= i <= |tokens| ==> Concat(tokens[..i]) == tokens[0] + Concat(tokens[1..][..i - 1])
  {
    forall i | 1 <= i <= |tokens|
      ensures Concat(tokens[..i]) == tokens[0] + Concat(tokens[1..][..i - 1])
    {
      assert tokens[..i] == [tokens[0]] + tokens[1..][..i - 1];
      ConcatAppend([tokens[0]], tokens[1..][..i - 1]);
      assert Concat([tokens[0]]) == Concat([]) + tokens[0];
    }
  }

  /** `streamingText` after delivering `tokens` to `text`. */
  function Deliver(text: string, tokens: seq<string>): (r: string)
    ensures r == text + Concat(tokens)
  {
    var log := DeliveryLog(text, tokens);
    assert tokens[..|tokens|] == tokens;
    log[|tokens|]
  }

  /** A token delivered twice is appended twice: redelivery duplicates text. */
  lemma RedeliveryDuplicates(text: string, token: string)
    requires token != ""
    ensures Deliver(text, [token, token]) == text + token + token
    ensures Deliver(text, [token, token]) != Deliver(text, [token])
  {
    assert Concat([token, token]) == Concat([token]) + token;
    assert Concat([token]) == Concat([]) + token;
  }

  /** The position in the text log of the reset made just before the streaming call. */
  function ResetAt(early: seq<string>): nat
  {
    |early| + 1
  }

  /** Every value `streamingText` takes in a run, latest last: the deliveries of the
      `early` tokens to the initial empty text, then the reset to the empty text, then
      the deliveries of the streaming call's tokens. */
  function TextLog(early: seq<string>, tokens: seq<string>): (log: seq<string>)
    ensures |log| == ResetAt(early) + |tokens| + 1
    ensures forall i {:trigger log[i]} :: 0 <= i < ResetAt(early) ==> log[i] == Concat(early[..i])
    ensures forall i {:trigger log[i]} :: ResetAt(early) <= i < |log| ==> log[i] == Concat(tokens[..i - ResetAt(early)])
    ensures log[ResetAt(early)] == ""
    ensures log[|log| - 1] == Concat(tokens)
  {
    var before := DeliveryLog("", early);
    var after := DeliveryLog("", tokens);
    assert forall i :: ResetAt(early) <= i < ResetAt(early) + |after| ==> (before + after)[i] == after[i - ResetAt(early)];
    assert tokens[..0] == [] && tokens[..|tokens|] == tokens;
    before + after
  }

  /** From the reset on, every value of `streamingText` extends the earlier ones. */
  lemma TextLogGrows(early: seq<string>, tokens: seq<string>, i: nat, j: nat)
    requires ResetAt(early) <= i <= j < |TextLog(early, tokens)|
    ensures var log := TextLog(early, tokens);
      && IsPrefix(log[i], log[j])
  {
    var log := TextLog(early, tokens);
    var k := ResetAt(early);
    var a, b := i - k, j - k;
    var x, y := tokens[..a], tokens[a..b];
    assert log[i] == Concat(x);
    assert log[j] == Concat(tokens[..b]);
    assert tokens[..b] == x + y;
    ConcatAppend(x, y);
    var cx, cy := Concat(x), Concat(y);
    assert log[j] == cx + cy;
    assert (cx + cy)[..|cx|] == cx;
  }

  /** A finished run: the workflow's return value, the batch model calls of the loop,
      the one streaming model call, the progress phases, and every value
      `streamingText` took, latest last. */
  datatype StreamRun = StreamRun(
    result: AgentResult,
    requests: seq<LlmRequest>,
    streamCall: LlmRequest,
    progress: seq<Phase>,
    textLog: seq<string>)

  /** The whole workflow. `early` are the tokens signalled before the reset, which no
      activity of this workflow sends but which the handler accepts all the same.
      The streaming call passes the history as it stands, even when it is empty. */
  function RunStreaming(o: Oracle, input: AgentInput, early: seq<string>, reply: StreamReply): (run: StreamRun)
    ensures var m := EffectiveMaxSteps(input.maxSteps);
      var n := run.result.totalSteps;
      && (m >= 1 ==> 1 <= n <= m)
      && (m <= 0 ==> n == 0)
      && |run.requests| == n
      && run.streamCall.prompt == (if Answered(o, n) then input.prompt else BatchAgent.SummaryPrompt)
      && run.streamCall.messages.Some?
      && run.result.finalResponse == reply.text
      && |run.progress| >= 3
      && run.progress[|run.progress| - 1] == Completed
      && run.progress[|run.progress| - 2] == (if Answered(o, n) then StreamingFinal else GeneratingFinalStreaming)
      && run.textLog == TextLog(early, reply.tokens)
  {
    var loop := RunLoop(o, input);
    RunLoopPhases(o, input);
    var summarise := loop.finalResponse == "";
    var call := LlmRequest(if summarise then BatchAgent.SummaryPrompt else input.prompt, Some(loop.history));
    var phase := if summarise then GeneratingFinalStreaming else StreamingFinal;
    StreamRun(AgentResult(reply.text, loop.records, loop.stepCount),
              loop.requests,
              call,
              loop.progress + [phase, Completed],
              TextLog(early, reply.tokens))
  }

  /** Both workflows run the same loop: same steps, same batch calls, same records,
      and the streaming call receives the complete history of the loop's rounds. */
  lemma StreamingSharesLoop(o: Oracle, input: AgentInput, early: seq<string>, reply: StreamReply)
    ensures var s := RunStreaming(o, input, early, reply);
      var b := BatchAgent.RunAgent(o, input);
      && s.result.totalSteps == b.result.totalSteps
      && s.result.toolCalls == b.result.toolCalls
      && s.requests == b.requests[..s.result.totalSteps]
      && s.streamCall.messages == Some(ExpectedHistory(o, 0, s.result.totalSteps, 0))
  {
    RunLoopTranscript(o, input);
  }

  /** The streaming call's text is the answer, even when the loop had already found
      one: a streamed text that differs from the loop's answer replaces it, where the
      batch workflow keeps the loop's answer. */
  lemma StreamedTextOverridesLoopAnswer(o: Oracle, input: AgentInput, early: seq<string>, reply: StreamReply)
    requires Answered(o, RunLoop(o, input).stepCount)
    requires reply.text != o.llm(RunLoop(o, input).stepCount - 1).text
    ensures RunStreaming(o, input, early, reply).result.finalResponse
         != BatchAgent.RunAgent(o, input).result.finalResponse
  {
  }
}
