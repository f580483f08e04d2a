/** The agent step loop shared by the batch and the streaming workflow: each round
    calls the model, runs the requested tools one by one in request order, appends
    the two resulting messages to the history, and stops on a final answer or when
    the step budget is spent. The model and the tool activities are oracles. */
module StepLoop {
  import opened Base
  import opened Messages
  import opened Tools
  import opened AgentTypes

  /** What the workflow learns from outside: the reply to its n-th batch model call,
      the output of an activity run made for its n-th tool record (the run names the
      activity and carries its input), and the clock reading stamped on its n-th tool
      record. */
  datatype Oracle = Oracle(llm: nat -> LlmResult, activity: (Invocation, nat) -> Json, clock: nat -> int)

  /** The values the workflow's progress variable takes, as a closed set of phases.
      `Text` renders each the way the workflow writes it. */
  datatype Phase =
    | Starting
    | CallingModel(step: nat)
    | ExecutingTool(step: nat, toolName: string)
    | GeneratingFinal
    | GeneratingFinalStreaming
    | StreamingFinal
    | Completed

  function Text(p: Phase): string
  {
    match p
    case Starting => "Starting AI agent..."
    case CallingModel(step) => "Step " + NatToString(step) + ": Calling LLM..."
    case ExecutingTool(step, toolName) => "Step " + NatToString(step) + ": Executing " + toolName + "..."
    case GeneratingFinal => "Generating final response..."
    case GeneratingFinalStreaming => "Generating final response (streaming)..."
    case StreamingFinal => "Streaming final response..."
    case Completed => "Completed!"
  }

  /** Reads a progress string back into the phase it renders, if it renders one. */
  function ParsePhase(s: string): Option<Phase>
  {
    if |s| >= 5 && s[..5] == "Step " then ParseStepPhase(s[5..]) else ParseFixedPhase(s)
  }

  /** Reads one of the fixed progress strings back into its phase. */
  function ParseFixedPhase(s: string): Option<Phase>
  {
    if s == "Starting AI agent..." then Some(Starting)
    else if s == "Generating final response..." then Some(GeneratingFinal)
    else if s == "Generating final response (streaming)..." then Some(GeneratingFinalStreaming)
    else if s == "Streaming final response..." then Some(StreamingFinal)
    else if s == "Completed!" then Some(Completed)
    else None
  }

  /** Reads the text after "Step ": the step number, then the phase's own text. */
  function ParseStepPhase(rest: string): Option<Phase>
  {
    var k := DigitRun(rest);
    if k == 0 then None else ParseStepTail(ParseNat(rest[..k]), rest[k..])
  }

  function ParseStepTail(step: nat, tail: string): Option<Phase>
  {
    if tail == ": Calling LLM..." then Some(CallingModel(step))
    else if |tail| >= 15 && tail[..12] == ": Executing " && tail[|tail| - 3..] == "..." then
      Some(ExecutingTool(step, tail[12..|tail| - 3]))
    else None
  }

  /** A step phase reads back from the text after "Step ": the step's digits, then
      the phase's own text. */
  lemma ParseStepText(d: string, tail: string)
    requires AllDigits(d) && |d| > 0
    requires |tail| > 0 && tail[0] == ':'
    ensures ParseStepPhase(d + tail) == ParseStepTail(ParseNat(d), tail)
  {
    DigitRunSplits(d, tail);
    assert (d + tail)[..|d|] == d && (d + tail)[|d|..] == tail;
  }

  /** Every progress string reads back as the phase it renders. */
  lemma ParsePhaseText(p: Phase)
    ensures ParsePhase(Text(p)) == Some(p)
  {
    match p
    case CallingModel(step) => ParseCallingText(step);
    case ExecutingTool(step, toolName) => ParseExecutingText(step, toolName);
    case _ => ParseFixedText(p);
  }

  lemma ParseCallingText(step: nat)
    ensures ParsePhase(Text(CallingModel(step))) == Some(CallingModel(step))
  {
    ParseStepPhaseText(step, ": Calling LLM...");
  }

  lemma ParseExecutingText(step: nat, toolName: string)
    ensures ParsePhase(Text(ExecutingTool(step, toolName))) == Some(ExecutingTool(step, toolName))
  {
    var tail := ": Executing " + toolName + "...";
    assert Text(ExecutingTool(step, toolName)) == "Step " + NatToString(step) + tail;
    ParseStepPhaseText(step, tail);
    ParseExecutingTail(step, toolName);
  }

  /** "Step <n><tail>" reads back through the step number `n` and its tail. */
  lemma ParseStepPhaseText(step: nat, tail: string)
    requires |tail| > 0 && tail[0] == ':'
    ensures ParsePhase("Step " + NatToString(step) + tail) == ParseStepTail(step, tail)
  {
    var d := NatToString(step);
    ParseNatToString(step);
    var pre := "Step ";
    var rest := d + tail;
    AppendAssoc(pre, d, tail);
    var s := pre + rest;
    assert s[..|pre|] == pre && s[|pre|..] == rest;
    assert ParsePhase(s) == ParseStepPhase(rest);
    ParseStepText(d, tail);
  }


  /** A string whose third character is not 'e' does not start with "Step ". */
  lemma NotStepText(s: string)
    requires |s| >= 3 && s[2] != 'e'
    ensures !(|s| >= 5 && s[..5] == "Step ")
  {
  }

  /** The fixed phase strings read back as their phases. */
  lemma ParseFixedText(p: Phase)
    requires !p.CallingModel? && !p.ExecutingTool?
    ensures ParsePhase(Text(p)) == Some(p)
  {
    var s := Text(p);
    assert s[2] != 'e';
    NotStepText(s);
  }

  lemma ParseExecutingTail(step: nat, toolName: string)
    ensures ParseStepTail(step, ": Executing " + toolName + "...") == Some(ExecutingTool(step, toolName))
  {
    var tail := ": Executing " + toolName + "...";
    assert tail[2] == 'E';
    assert tail[..12] == ": Executing " && tail[|tail| - 3..] == "..." && tail[12..|tail| - 3] == toolName;
  }

  /** Distinct phases render as distinct progress strings, so the progress query
      changes exactly when the phase does. */
  lemma TextInjective(p: Phase, q: Phase)
    ensures Text(p) == Text(q) <==> p == q
  {
    ParsePhaseText(p);
    ParsePhaseText(q);
  }

  /** The workflow's local variables. `progress` lists every phase the progress
      variable has shown, latest last; `requests` lists every batch model call made;
      `activities` lists every tool activity run. */
  datatype LoopState = LoopState(
    stepCount: nat,
    history: seq<Message>,
    records: seq<ToolCallRecord>,
    finalResponse: string,
    progress: seq<Phase>,
    requests: seq<LlmRequest>,
    activities: seq<Invocation>)

  const Initial: LoopState := LoopState(0, [], [], "", [Starting], [], [])

  /** The reply ends the loop: it asks for no tool, or it carries text with finish reason "stop". */
  predicate StopsLoop(res: LlmResult)
  {
    |res.toolCalls| == 0 || (res.text != "" && res.finishReason == "stop")
  }

  /** The history argument of a loop call: `undefined` while the history is empty. */
  function Request(prompt: string, history: seq<Message>): LlmRequest
  {
    LlmRequest(prompt, if |history| > 0 then Some(history) else None)
  }

  /** The result recorded for call `c` when it is the n-th tool record of the run. */
  function ToolResult(o: Oracle, c: ToolCallInfo, n: nat): Json
  {
    Dispatch(c.toolName, c.input, a => o.activity(a, n))
  }

  function RecordFor(o: Oracle, c: ToolCallInfo, n: nat): ToolCallRecord
  {
    ToolCallRecord(c.toolName, c.input, ToolResult(o, c, n), o.clock(n))
  }

  // Reference definitions: what one step appends, position by position.

  function CallParts(calls: seq<ToolCallInfo>): seq<Part>
  {
    seq(|calls|, i requires 0 <= i < |calls| => ToolCallPart(calls[i].toolCallId, calls[i].toolName, calls[i].input))
  }

  function ResultParts(o: Oracle, calls: seq<ToolCallInfo>, base: nat): seq<Part>
  {
    seq(|calls|, i requires 0 <= i < |calls| =>
      ToolResultPart(calls[i].toolCallId, calls[i].toolName, ToolResult(o, calls[i], base + i)))
  }

  /** The activity runs that tool records stand for, in order: one per record of a
      registered tool, with the record's input, and none for any other record. */
  function ActivitiesOf(records: seq<ToolCallRecord>): seq<Invocation>
  {
    if |records| == 0 then []
    else OptionSeq(Invoke(records[0].toolName, records[0].input)) + ActivitiesOf(records[1..])
  }

  function RecordsFor(o: Oracle, calls: seq<ToolCallInfo>, base: nat): seq<ToolCallRecord>
  {
    seq(|calls|, i requires 0 <= i < |calls| => RecordFor(o, calls[i], base + i))
  }

  function ExecutingFor(step: nat, calls: seq<ToolCallInfo>): seq<Phase>
  {
    seq(|calls|, i requires 0 <= i < |calls| => ExecutingTool(step, calls[i].toolName))
  }

  /** The messages a step appends when the reply to model call `from` is in hand and
      the step's first tool call becomes record `base`: none when no tool was asked
      for, otherwise the assistant message with the calls and the tool message with
      their results. */
  function StepMessages(o: Oracle, from: nat, base: nat): seq<Message>
  {
    var calls := o.llm(from).toolCalls;
    if |calls| == 0 then []
    else [Message(Assistant, CallParts(calls)), Message(Tool, ResultParts(o, calls, base))]
  }

  /** The history appended by `k` steps answered by model calls `from`, `from + 1`, ... */
  function ExpectedHistory(o: Oracle, from: nat, k: nat, base: nat): seq<Message>
    decreases k
  {
    if k == 0 then []
    else StepMessages(o, from, base) + ExpectedHistory(o, from + 1, k - 1, base + |o.llm(from).toolCalls|)
  }

  /** The tool records appended by `k` steps answered by model calls `from`, `from + 1`, ... */
  function ExpectedRecords(o: Oracle, from: nat, k: nat, base: nat): seq<ToolCallRecord>
    decreases k
  {
    if k == 0 then []
    else
      var calls := o.llm(from).toolCalls;
      RecordsFor(o, calls, base) + ExpectedRecords(o, from + 1, k - 1, base + |calls|)
  }

  // The loop as the workflow runs it.

  /** What the tool loop of one round accumulates. */
  datatype ToolRun = ToolRun(records: seq<ToolCallRecord>, progress: seq<Phase>, parts: seq<Part>, activities: seq<Invocation>)

  /** One pass of the tool loop body: announce the tool, dispatch it, record it and
      collect its result part. A registered tool runs its own activity once, on the
      call's input, and records that run's output; any other name runs nothing. */
  function ExecuteTool(o: Oracle, step: nat, c: ToolCallInfo, run: ToolRun): (r: ToolRun)
    ensures |r.records| == |run.records| + 1
    ensures c.toolName == GetWeatherName ==>
      && r.activities == run.activities + [RunGetWeather(c.input)]
      && r.records[|run.records|].result == o.activity(RunGetWeather(c.input), |run.records|)
    ensures c.toolName == ConvertToCelsiusName ==>
      && r.activities == run.activities + [RunConvertToCelsius(c.input)]
      && r.records[|run.records|].result == o.activity(RunConvertToCelsius(c.input), |run.records|)
    ensures c.toolName !in Registry ==>
      && r.activities == run.activities
      && r.records[|run.records|].result == UnknownToolResult(c.toolName)
  {
    var n := |run.records|;
    var result := ToolResult(o, c, n);
    ToolRun(run.records + [ToolCallRecord(c.toolName, c.input, result, o.clock(n))],
            run.progress + [ExecutingTool(step, c.toolName)],
            run.parts + [ToolResultPart(c.toolCallId, c.toolName, result)],
            run.activities + OptionSeq(Invoke(c.toolName, c.input)))
  }

  /** Runs `calls` sequentially, in request order. */
  function ExecuteTools(o: Oracle, step: nat, calls: seq<ToolCallInfo>, run: ToolRun): ToolRun
    decreases |calls|
  {
    if |calls| == 0 then run
    else ExecuteTools(o, step, calls[1..], ExecuteTool(o, step, calls[0], run))
  }

  /** One round of the loop body: the model call and, when tools were requested,
      the tool runs and the two appended messages. Whether the loop breaks after the
      round is `StopsLoop` of the same reply: the workflow tests "no tool calls" before
      running tools and "text with finish reason stop" after them. */
  function Step(o: Oracle, prompt: string, st: LoopState): LoopState
  {
    var step := st.stepCount + 1;
    var res := o.llm(|st.requests|);
    var requests := st.requests + [Request(prompt, st.history)];
    var progress := st.progress + [CallingModel(step)];
    if |res.toolCalls| == 0 then
      LoopState(step, st.history, st.records, res.text, progress, requests, st.activities)
    else
      var run := ExecuteTools(o, step, res.toolCalls, ToolRun(st.records, progress, [], st.activities));
      var history := st.history + [Message(Assistant, CallParts(res.toolCalls)), Message(Tool, run.parts)];
      var final := if res.text != "" && res.finishReason == "stop" then res.text else st.finalResponse;
      LoopState(step, history, run.records, final, run.progress, requests, run.activities)
  }

  /** `while (stepCount < maxSteps)` with its two breaks. */
  function Loop(o: Oracle, prompt: string, maxSteps: int, st: LoopState): LoopState
    decreases maxSteps - st.stepCount, 1
  {
    if st.stepCount < maxSteps then Round(o, prompt, maxSteps, st) else st
  }

  /** One pass of the loop body, then the rest of the loop unless the reply breaks it. */
  function Round(o: Oracle, prompt: string, maxSteps: int, st: LoopState): LoopState
    requires st.stepCount < maxSteps
    decreases maxSteps - st.stepCount, 0
  {
    var next := Step(o, prompt, st);
    if StopsLoop(o.llm(|st.requests|)) then next else Loop(o, prompt, maxSteps, next)
  }

  // Proofs.

  lemma RecordsForCons(o: Oracle, calls: seq<ToolCallInfo>, base: nat)
    requires |calls| > 0
    ensures RecordsFor(o, calls, base) == [RecordFor(o, calls[0], base)] + RecordsFor(o, calls[1..], base + 1)
  {
  }

  lemma ResultPartsCons(o: Oracle, calls: seq<ToolCallInfo>, base: nat)
    requires |calls| > 0
    ensures ResultParts(o, calls, base)
         == [ToolResultPart(calls[0].toolCallId, calls[0].toolName, ToolResult(o, calls[0], base))]
            + ResultParts(o, calls[1..], base + 1)
  {
  }

  lemma ExecutingForCons(step: nat, calls: seq<ToolCallInfo>)
    requires |calls| > 0
    ensures ExecutingFor(step, calls) == [ExecutingTool(step, calls[0].toolName)] + ExecutingFor(step, calls[1..])
  {
  }

  /** The tool loop appends, in request order, one record, one progress value and
      one result part per call; the i-th record and part come from tool output
      base+i, where base is the number of records before the loop. */
  lemma {:induction false} ExecuteToolsSpec(o: Oracle, step: nat, calls: seq<ToolCallInfo>, run: ToolRun)
    ensures ExecuteTools(o, step, calls, run).records == run.records + RecordsFor(o, calls, |run.records|)
    ensures ExecuteTools(o, step, calls, run).progress == run.progress + ExecutingFor(step, calls)
    ensures ExecuteTools(o, step, calls, run).parts == run.parts + ResultParts(o, calls, |run.records|)
    decreases |calls|
  {
    var base := |run.records|;
    if |calls| == 0 {
      assert RecordsFor(o, calls, base) == [] && ExecutingFor(step, calls) == [] && ResultParts(o, calls, base) == [];
      assert run.records + [] == run.records && run.progress + [] == run.progress && run.parts + [] == run.parts;
    } else {
      var next := ExecuteTool(o, step, calls[0], run);
      ExecuteToolsSpec(o, step, calls[1..], next);
      RecordsForCons(o, calls, base);
      ResultPartsCons(o, calls, base);
      ExecutingForCons(step, calls);
      assert next.records == run.records + [RecordFor(o, calls[0], base)];
      assert next.records + RecordsFor(o, calls[1..], base + 1) == run.records + RecordsFor(o, calls, base);
      assert next.progress + ExecutingFor(step, calls[1..]) == run.progress + ExecutingFor(step, calls);
      assert next.parts + ResultParts(o, calls[1..], base + 1) == run.parts + ResultParts(o, calls, base);
    }
  }

  /** The tool loop runs, in request order, the activity of each registered tool it
      records, on the call's input, and none for any other name. */
  lemma {:induction false} ExecuteToolsActivities(o: Oracle, step: nat, calls: seq<ToolCallInfo>, run: ToolRun)
    ensures ExecuteTools(o, step, calls, run).activities
         == run.activities + ActivitiesOf(RecordsFor(o, calls, |run.records|))
    decreases |calls|
  {
    var base := |run.records|;
    if |calls| == 0 {
      assert RecordsFor(o, calls, base) == [];
      assert run.activities + [] == run.activities;
    } else {
      var next := ExecuteTool(o, step, calls[0], run);
      ExecuteToolsActivities(o, step, calls[1..], next);
      RecordsForCons(o, calls, base);
      var head := RecordFor(o, calls[0], base);
      var rest := RecordsFor(o, calls[1..], base + 1);
      assert ([head] + rest)[0] == head && ([head] + rest)[1..] == rest;
      var ran := OptionSeq(Invoke(calls[0].toolName, calls[0].input));
      assert ActivitiesOf([head] + rest) == ran + ActivitiesOf(rest);
      assert next.activities == run.activities + ran;
      AppendAssoc(run.activities, ran, ActivitiesOf(rest));
    }
  }

  /** One round makes one model call, whose history argument is the history so far,
      and the loop breaks after it exactly when the reply asks for no tool or carries
      text with finish reason "stop"; only then is the final response set, to the
      reply's text. */
  lemma StepExit(o: Oracle, prompt: string, st: LoopState)
    ensures var r := Step(o, prompt, st);
      var res := o.llm(|st.requests|);
      && r.stepCount == st.stepCount + 1
      && r.requests == st.requests + [Request(prompt, st.history)]
      && r.finalResponse == (if StopsLoop(res) then res.text else st.finalResponse)
  {
  }

  /** With k requested tools a round appends exactly two messages (the k call parts,
      then the k result parts in the same order), k tool records in request order,
      and one progress value for the call plus one per tool; with none it appends
      no message and no record. */
  lemma StepAppends(o: Oracle, prompt: string, st: LoopState)
    ensures var r := Step(o, prompt, st);
      var res := o.llm(|st.requests|);
      && r.history == st.history + StepMessages(o, |st.requests|, |st.records|)
      && r.records == st.records + RecordsFor(o, res.toolCalls, |st.records|)
      && r.progress == st.progress + [CallingModel(st.stepCount + 1)] + ExecutingFor(st.stepCount + 1, res.toolCalls)
  {
    var step := st.stepCount + 1;
    var res := o.llm(|st.requests|);
    if |res.toolCalls| == 0 {
      assert RecordsFor(o, res.toolCalls, |st.records|) == [];
      assert ExecutingFor(step, res.toolCalls) == [];
      assert st.history + [] == st.history && st.records + [] == st.records;
    } else {
      var run0 := ToolRun(st.records, st.progress + [CallingModel(step)], [], st.activities);
      ExecuteToolsSpec(o, step, res.toolCalls, run0);
      var run := ExecuteTools(o, step, res.toolCalls, run0);
      assert run.parts == ResultParts(o, res.toolCalls, |st.records|);
      assert StepMessages(o, |st.requests|, |st.records|)
          == [Message(Assistant, CallParts(res.toolCalls)), Message(Tool, run.parts)];
    }
  }

  /** The history and record count after a round, for the loop proofs. */
  lemma StepHistory(o: Oracle, prompt: string, st: LoopState)
    ensures Step(o, prompt, st).history == st.history + StepMessages(o, |st.requests|, |st.records|)
    ensures |Step(o, prompt, st).records| == |st.records| + |o.llm(|st.requests|).toolCalls|
  {
    StepAppends(o, prompt, st);
    assert |RecordsFor(o, o.llm(|st.requests|).toolCalls, |st.records|)| == |o.llm(|st.requests|).toolCalls|;
  }

  /** Every result part of a step answers the call part at the same position: same
      call id and tool name, and there are as many results as calls. */
  lemma StepPairsCallsWithResults(o: Oracle, prompt: string, st: LoopState)
    requires |o.llm(|st.requests|).toolCalls| > 0
    ensures var r := Step(o, prompt, st);
      var calls := o.llm(|st.requests|).toolCalls;
      var asked := r.history[|st.history|];
      var answered := r.history[|st.history| + 1];
      && |r.history| == |st.history| + 2
      && asked.role == Assistant && answered.role == Tool
      && |asked.content| == |calls| == |answered.content|
      && forall i :: 0 <= i < |calls| ==>
           && asked.content[i] == ToolCallPart(calls[i].toolCallId, calls[i].toolName, calls[i].input)
           && answered.content[i].ToolResultPart?
           && answered.content[i].toolCallId == calls[i].toolCallId
           && answered.content[i].toolName == calls[i].toolName
  {
    StepExit(o, prompt, st);
    StepAppends(o, prompt, st);
  }

  /** An unregistered tool name is recorded with the error object and does not end
      the loop by itself: whether the step breaks depends on the reply alone. */
  lemma UnknownToolDoesNotStop(o: Oracle, prompt: string, maxSteps: int, st: LoopState, i: nat)
    requires var calls := o.llm(|st.requests|).toolCalls; i < |calls| && calls[i].toolName !in Registry
    ensures var r := Step(o, prompt, st);
      var res := o.llm(|st.requests|);
      && |st.records| + i < |r.records|
      && r.records[|st.records| + i].toolName == res.toolCalls[i].toolName
      && r.records[|st.records| + i].result == UnknownToolResult(res.toolCalls[i].toolName)
      && (StopsLoop(res) <==> res.text != "" && res.finishReason == "stop")
      && (st.stepCount < maxSteps && !(res.text != "" && res.finishReason == "stop") ==>
            Loop(o, prompt, maxSteps, st) == Loop(o, prompt, maxSteps, r))
  {
    StepAppends(o, prompt, st);
    if st.stepCount < maxSteps {
      assert Loop(o, prompt, maxSteps, st) == Round(o, prompt, maxSteps, st);
    }
    assert |RecordsFor(o, o.llm(|st.requests|).toolCalls, |st.records|)| == |o.llm(|st.requests|).toolCalls|;
  }

  /** The loop's exit rule: from any state it runs n >= 1 rounds when budget remains
      (none otherwise) and never passes the budget; every reply but the last lets the
      loop go on, and the last one stops it unless the budget ran out; the final
      response is the stopping reply's text. */
  lemma {:induction false} LoopExit(o: Oracle, prompt: string, maxSteps: int, st: LoopState)
    ensures var r := Loop(o, prompt, maxSteps, st);
      var from := |st.requests|;
      var n := r.stepCount - st.stepCount;
      && st.stepCount <= r.stepCount
      && (st.stepCount < maxSteps ==> 1 <= n && r.stepCount <= maxSteps)
      && (st.stepCount >= maxSteps ==> r == st)
      && |r.requests| == from + n
      && (forall i :: from <= i < from + n - 1 ==> !StopsLoop(o.llm(i)))
      && (n >= 1 && r.stepCount < maxSteps ==> StopsLoop(o.llm(from + n - 1)))
      && r.finalResponse == (if n >= 1 && StopsLoop(o.llm(from + n - 1)) then o.llm(from + n - 1).text
                             else st.finalResponse)
    decreases maxSteps - st.stepCount
  {
    if st.stepCount < maxSteps {
      var next := Step(o, prompt, st);
      StepExit(o, prompt, st);
      if !StopsLoop(o.llm(|st.requests|)) {
        LoopExit(o, prompt, maxSteps, next);
      }
    }
  }

  /** The loop only appends to the history: the state's own followed by exactly the
      messages its rounds append. */
  lemma {:induction false} LoopHistory(o: Oracle, prompt: string, maxSteps: int, st: LoopState)
    ensures var r := Loop(o, prompt, maxSteps, st);
      && st.stepCount <= r.stepCount
      && r.history == st.history + ExpectedHistory(o, |st.requests|, r.stepCount - st.stepCount, |st.records|)
    decreases maxSteps - st.stepCount
  {
    var from := |st.requests|;
    var base := |st.records|;
    var r := Loop(o, prompt, maxSteps, st);
    if st.stepCount < maxSteps {
      var next := Step(o, prompt, st);
      StepExit(o, prompt, st);
      StepHistory(o, prompt, st);
      var b1 := base + |o.llm(from).toolCalls|;
      assert |next.records| == b1;
      if StopsLoop(o.llm(from)) {
        assert r == next;
        assert ExpectedHistory(o, from, 1, base) == StepMessages(o, from, base) + [];
      } else {
        LoopHistory(o, prompt, maxSteps, next);
        assert r == Round(o, prompt, maxSteps, st) == Loop(o, prompt, maxSteps, next);
        var n := r.stepCount - st.stepCount;
        assert ExpectedHistory(o, from, n, base) == StepMessages(o, from, base) + ExpectedHistory(o, from + 1, n - 1, b1);
      }
    } else {
      assert st.history + [] == st.history;
    }
  }

  /** The loop only appends to the tool records: the state's own followed by exactly
      one record per executed tool call, in request order across rounds. */
  lemma {:induction false} LoopRecords(o: Oracle, prompt: string, maxSteps: int, st: LoopState)
    ensures var r := Loop(o, prompt, maxSteps, st);
      && st.stepCount <= r.stepCount
      && r.records == st.records + ExpectedRecords(o, |st.requests|, r.stepCount - st.stepCount, |st.records|)
    decreases maxSteps - st.stepCount
  {
    var from := |st.requests|;
    var base := |st.records|;
    var r := Loop(o, prompt, maxSteps, st);
    if st.stepCount < maxSteps {
      var next := Step(o, prompt, st);
      StepExit(o, prompt, st);
      StepAppends(o, prompt, st);
      var calls := o.llm(from).toolCalls;
      var b1 := base + |calls|;
      assert |RecordsFor(o, calls, base)| == |calls|;
      assert |next.records| == b1;
      if StopsLoop(o.llm(from)) {
        assert r == next;
        assert ExpectedRecords(o, from, 1, base) == RecordsFor(o, calls, base) + [];
      } else {
        LoopRecords(o, prompt, maxSteps, next);
        assert r == Round(o, prompt, maxSteps, st) == Loop(o, prompt, maxSteps, next);
        var n := r.stepCount - st.stepCount;
        assert ExpectedRecords(o, from, n, base) == RecordsFor(o, calls, base) + ExpectedRecords(o, from + 1, n - 1, b1);
      }
    } else {
      assert st.records + [] == st.records;
    }
  }

  /** The activity runs of joined record lists are those of each list, in order. */
  lemma {:induction false} ActivitiesOfAppend(a: seq<ToolCallRecord>, b: seq<ToolCallRecord>)
    ensures ActivitiesOf(a + b) == ActivitiesOf(a) + ActivitiesOf(b)
    decreases |a|
  {
    if |a| == 0 {
      assert a + b == b;
    } else {
      assert (a + b)[0] == a[0] && (a + b)[1..] == a[1..] + b;
      ActivitiesOfAppend(a[1..], b);
      AppendAssoc(OptionSeq(Invoke(a[0].toolName, a[0].input)), ActivitiesOf(a[1..]), ActivitiesOf(b));
    }
  }

  /** A round runs one activity per registered tool it records, on that call's
      input and in request order, and none for any other name. */
  lemma StepActivities(o: Oracle, prompt: string, st: LoopState)
    ensures Step(o, prompt, st).activities
         == st.activities + ActivitiesOf(RecordsFor(o, o.llm(|st.requests|).toolCalls, |st.records|))
  {
    var step := st.stepCount + 1;
    var res := o.llm(|st.requests|);
    if |res.toolCalls| == 0 {
      assert RecordsFor(o, res.toolCalls, |st.records|) == [];
      assert st.activities + [] == st.activities;
    } else {
      ExecuteToolsActivities(o, step, res.toolCalls, ToolRun(st.records, st.progress + [CallingModel(step)], [], st.activities));
    }
  }

  /** A round keeps the activity log equal to the runs its records stand for. */
  lemma StepKeepsActivities(o: Oracle, prompt: string, st: LoopState)
    requires st.activities == ActivitiesOf(st.records)
    ensures Step(o, prompt, st).activities == ActivitiesOf(Step(o, prompt, st).records)
  {
    var head := RecordsFor(o, o.llm(|st.requests|).toolCalls, |st.records|);
    StepAppends(o, prompt, st);
    StepActivities(o, prompt, st);
    ActivitiesOfAppend(st.records, head);
  }

  /** The loop keeps the activity log equal to the runs its records stand for: every
      activity run is a recorded call of a registered tool, on its recorded input, in
      record order, and a call of any other name runs none. */
  lemma {:induction false} LoopActivities(o: Oracle, prompt: string, maxSteps: int, st: LoopState)
    requires st.activities == ActivitiesOf(st.records)
    ensures Loop(o, prompt, maxSteps, st).activities == ActivitiesOf(Loop(o, prompt, maxSteps, st).records)
    decreases maxSteps - st.stepCount
  {
    if st.stepCount < maxSteps {
      var next := Step(o, prompt, st);
      StepExit(o, prompt, st);
      StepKeepsActivities(o, prompt, st);
      if !StopsLoop(o.llm(|st.requests|)) {
        LoopActivities(o, prompt, maxSteps, next);
        assert Loop(o, prompt, maxSteps, st) == Round(o, prompt, maxSteps, st) == Loop(o, prompt, maxSteps, next);
      }
    }
  }

  /** The progress log only grows: one phase per round and one per tool record. */
  lemma {:induction false} LoopProgress(o: Oracle, prompt: string, maxSteps: int, st: LoopState)
    ensures var r := Loop(o, prompt, maxSteps, st);
      && st.stepCount <= r.stepCount
      && |st.records| <= |r.records|
      && |st.progress| <= |r.progress|
      && r.progress[..|st.progress|] == st.progress
      && |r.progress| + |st.records| == |st.progress| + (r.stepCount - st.stepCount) + |r.records|
    decreases maxSteps - st.stepCount
  {
    var r := Loop(o, prompt, maxSteps, st);
    if st.stepCount < maxSteps {
      var next := Step(o, prompt, st);
      StepExit(o, prompt, st);
      StepAppends(o, prompt, st);
      var calls := o.llm(|st.requests|).toolCalls;
      assert |RecordsFor(o, calls, |st.records|)| == |calls| == |ExecutingFor(st.stepCount + 1, calls)|;
      if !StopsLoop(o.llm(|st.requests|)) {
        LoopProgress(o, prompt, maxSteps, next);
        assert r == Round(o, prompt, maxSteps, st) == Loop(o, prompt, maxSteps, next);
        assert r.progress[..|next.progress|][..|st.progress|] == r.progress[..|st.progress|];
      }
    }
  }

  /** The phases the loop itself shows. */
  predicate LoopPhase(p: Phase)
  {
    p.Starting? || p.CallingModel? || p.ExecutingTool?
  }

  /** Inside the loop the progress variable only announces model calls and tools. */
  lemma {:induction false} LoopPhases(o: Oracle, prompt: string, maxSteps: int, st: LoopState)
    requires forall i :: 0 <= i < |st.progress| ==> LoopPhase(st.progress[i])
    ensures forall i :: 0 <= i < |Loop(o, prompt, maxSteps, st).progress| ==>
      LoopPhase(Loop(o, prompt, maxSteps, st).progress[i])
    decreases maxSteps - st.stepCount
  {
    if st.stepCount < maxSteps {
      var next := Step(o, prompt, st);
      StepAppends(o, prompt, st);
      var step := st.stepCount + 1;
      var calls := o.llm(|st.requests|).toolCalls;
      var added := [CallingModel(step)] + ExecutingFor(step, calls);
      assert forall i :: 0 <= i < |added| ==> LoopPhase(added[i]);
      AppendAssoc(st.progress, [CallingModel(step)], ExecutingFor(step, calls));
      assert next.progress == st.progress + added;
      var r := Loop(o, prompt, maxSteps, st);
      if StopsLoop(o.llm(|st.requests|)) {
        assert r == Round(o, prompt, maxSteps, st) == next;
      } else {
        LoopPhases(o, prompt, maxSteps, next);
        assert r == Round(o, prompt, maxSteps, st) == Loop(o, prompt, maxSteps, next);
      }
    }
  }

  /** The loop never rewrites a model call already made. */
  lemma {:induction false} LoopKeepsRequests(o: Oracle, prompt: string, maxSteps: int, st: LoopState)
    ensures var r := Loop(o, prompt, maxSteps, st);
      && |st.requests| <= |r.requests|
      && r.requests[..|st.requests|] == st.requests
    decreases maxSteps - st.stepCount
  {
    if st.stepCount < maxSteps {
      var next := Step(o, prompt, st);
      StepExit(o, prompt, st);
      if !StopsLoop(o.llm(|st.requests|)) {
        LoopKeepsRequests(o, prompt, maxSteps, next);
        var r := Loop(o, prompt, maxSteps, st);
        assert r == Round(o, prompt, maxSteps, st) == Loop(o, prompt, maxSteps, next);
        assert r.requests[..|next.requests|][..|st.requests|] == r.requests[..|st.requests|];
      }
    }
  }

  /** The model call of each round receives the history accumulated by the rounds
      before it. */
  lemma {:induction false} LoopRequests(o: Oracle, prompt: string, maxSteps: int, st: LoopState)
    ensures forall i :: |st.requests| <= i < |Loop(o, prompt, maxSteps, st).requests| ==>
      Loop(o, prompt, maxSteps, st).requests[i]
        == Request(prompt, st.history + ExpectedHistory(o, |st.requests|, i - |st.requests|, |st.records|))
    decreases maxSteps - st.stepCount
  {
    var from := |st.requests|;
    var base := |st.records|;
    var r := Loop(o, prompt, maxSteps, st);
    if st.stepCount < maxSteps {
      var next := Step(o, prompt, st);
      StepExit(o, prompt, st);
      StepHistory(o, prompt, st);
      assert ExpectedHistory(o, from, 0, base) == [];
      assert st.history + [] == st.history;
      if StopsLoop(o.llm(from)) {
        assert r == next;
      } else {
        LoopRequests(o, prompt, maxSteps, next);
        LoopKeepsRequests(o, prompt, maxSteps, next);
        assert r == Round(o, prompt, maxSteps, st) == Loop(o, prompt, maxSteps, next);
        var b1 := base + |o.llm(from).toolCalls|;
        assert |next.records| == b1;
        assert next.history == st.history + StepMessages(o, from, base);
        assert r.requests[from] == next.requests[from];
        forall i | from + 1 <= i < |r.requests|
          ensures r.requests[i] == Request(prompt, st.history + ExpectedHistory(o, from, i - from, base))
        {
          assert r.requests[i] == Request(prompt, next.history + ExpectedHistory(o, from + 1, i - (from + 1), b1));
          AppendAssoc(st.history, StepMessages(o, from, base), ExpectedHistory(o, from + 1, i - from - 1, b1));
        }
      }
    }
  }

  /** The step loop of a workflow run, started from the workflow's initial variables
      with the budget `input.maxSteps || 5`: with a positive budget m it runs between
      1 and m rounds, each making one model call, with none otherwise; every reply but
      the last lets the loop go on, the last one stops it unless the budget ran out,
      and the final response is the stopping reply's text, empty when none stopped. */
  function RunLoop(o: Oracle, input: AgentInput): (r: LoopState)
    ensures var m := EffectiveMaxSteps(input.maxSteps);
      var n := r.stepCount;
      && (m >= 1 ==> 1 <= n <= m)
      && (m <= 0 ==> n == 0)
      && |r.requests| == n
      && (forall i :: 0 <= i < n - 1 ==> !StopsLoop(o.llm(i)))
      && (1 <= n < m ==> StopsLoop(o.llm(n - 1)))
      && r.finalResponse == (if n >= 1 && StopsLoop(o.llm(n - 1)) then o.llm(n - 1).text else "")
  {
    var m := EffectiveMaxSteps(input.maxSteps);
    LoopExit(o, input.prompt, m, Initial);
    Loop(o, input.prompt, m, Initial)
  }

  /** The loop of a run that made `n` model calls ended with a non-empty final
      response: its last reply stopped the loop and carried text. */
  predicate Answered(o: Oracle, n: nat)
  {
    n >= 1 && StopsLoop(o.llm(n - 1)) && o.llm(n - 1).text != ""
  }

  /** Over a whole run the progress log starts at "Starting" and shows only loop phases. */
  lemma RunLoopPhases(o: Oracle, input: AgentInput)
    ensures |RunLoop(o, input).progress| >= 1
    ensures RunLoop(o, input).progress[0] == Starting
    ensures forall i :: 0 <= i < |RunLoop(o, input).progress| ==> LoopPhase(RunLoop(o, input).progress[i])
  {
    var m := EffectiveMaxSteps(input.maxSteps);
    LoopProgress(o, input.prompt, m, Initial);
    LoopPhases(o, input.prompt, m, Initial);
  }

  /** Over a whole run the history is exactly the messages the rounds append and the
      tool records are exactly one per executed call, in request order across rounds;
      the progress log holds, after "Starting", one phase per round and one per tool
      record. */
  lemma RunLoopTranscript(o: Oracle, input: AgentInput)
    ensures var r := RunLoop(o, input);
      && r.history == ExpectedHistory(o, 0, r.stepCount, 0)
      && r.records == ExpectedRecords(o, 0, r.stepCount, 0)
      && |r.progress| == 1 + r.stepCount + |r.records|
  {
    var m := EffectiveMaxSteps(input.maxSteps);
    LoopHistory(o, input.prompt, m, Initial);
    LoopRecords(o, input.prompt, m, Initial);
    LoopProgress(o, input.prompt, m, Initial);
  }

  /** Over a whole run the tool activities run are exactly the recorded calls of
      registered tools, each once, with its recorded input and in record order; a
      call of any other name runs none. */
  lemma RunLoopActivities(o: Oracle, input: AgentInput)
    ensures RunLoop(o, input).activities == ActivitiesOf(RunLoop(o, input).records)
  {
    LoopActivities(o, input.prompt, EffectiveMaxSteps(input.maxSteps), Initial);
  }

  /** The model call of round i receives the history of the i rounds before it; in
      particular the first call passes `undefined` and, with the first user message
      built from the prompt, the model sees exactly the prompt. */
  lemma RunLoopRequests(o: Oracle, input: AgentInput)
    ensures var r := RunLoop(o, input);
      && (forall i :: 0 <= i < |r.requests| ==> r.requests[i] == Request(input.prompt, ExpectedHistory(o, 0, i, 0)))
      && (|r.requests| >= 1 ==> r.requests[0] == LlmRequest(input.prompt, None))
      && (|r.requests| >= 1 ==> ModelConversation(r.requests[0]) == [PromptMessage(input.prompt)])
  {
    var m := EffectiveMaxSteps(input.maxSteps);
    LoopRequests(o, input.prompt, m, Initial);
    var r := RunLoop(o, input);
    var l := Loop(o, input.prompt, m, Initial);
    assert r == l;
    assert |Initial.requests| == 0 && |Initial.records| == 0 && Initial.history == [];
    forall i | 0 <= i < |r.requests|
      ensures r.requests[i] == Request(input.prompt, ExpectedHistory(o, 0, i, 0))
    {
      assert l.requests[i] == Request(input.prompt, Initial.history + ExpectedHistory(o, 0, i - 0, 0));
      assert Initial.history + ExpectedHistory(o, 0, i, 0) == ExpectedHistory(o, 0, i, 0);
    }
    assert ExpectedHistory(o, 0, 0, 0) == [];
  }
}
