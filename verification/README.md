# Crash-proof AI agent: a Dafny model of the step loop and the polling routes

This project models the core of a durable AI-agent service. The service runs an agent as a workflow. In each
round the workflow asks a language model what to do. It runs the tools the model asks for, one activity per
tool call, and feeds the results back into the conversation. It stops on a final answer or when its step budget
is spent. Two variants exist:

- The batch workflow `aiAgentWorkflow` falls back to one summarisation call when the loop ends without an answer.
- The streaming workflow `streamingAiAgentWorkflow` runs the same loop, then always makes one streaming model
  call. That call's tokens arrive as `streamToken` signals and are appended to a queryable `streamingText`.

The HTTP routes start the workflows, after rejecting a missing or empty prompt, and poll them. On each poll a
route reads a snapshot, either the progress string or the streamed text, then the workflow status. It turns
these into server-sent events.

The model is functional:

- The language model's replies are an oracle indexed by model call number.
- A tool activity run is an `Invocation`: which of the two activities runs and the input it is given. Its
  output is an oracle of the run and of the tool-record number; the clock is an oracle of the tool-record number.
  An unknown tool takes a record number but runs no activity.
- The loop is a recursive function that decreases on `maxSteps - stepCount`.
- The route loops are folds over sequences of poll outcomes.

Modules:

- `Base`: `Option`, JSON values, string concatenation, prefixes.
- `Messages`: conversation messages and model requests.
- `Tools`: the fixed tool table and dispatch.
- `AgentTypes`: the workflow input and result records, and the step budget.
- `StepLoop`: the loop shared by both workflows.
- `BatchAgent` and `StreamingAgent`: the two workflows.
- `Routes`: prompt validation and the polling reducers.

The streaming workflow's token handler appends each delivered token to `streamingText`, unconditionally. The
signal carries a bare string; the handler has no offset, sequence number or duplicate check.
`StreamingAgent.RedeliveryDuplicates` shows the consequence: a redelivered token is appended twice.

## Model

| member | source | states |
|---|---|---|
| AgentTypes.EffectiveMaxSteps | src/workflows/agent.ts:58 | The budget "`input.maxSteps` or else 5": an absent or zero budget becomes 5, any other number is kept, so the budget is never 0 |
| Base.ParseNatToString | src/workflows/agent.ts:68 | The decimal rendering of the step number is all digits and reads back as the number |
| Tools.Classify | src/workflows/agent.ts:109-119 | A tool name resolves to `getWeather`, `convertTocelsius` or unsupported, and it is unsupported exactly when it is outside the two-name registry |
| Tools.Invoke | src/workflows/agent.ts:109-119 | The switch runs the weather activity exactly for `getWeather` and the conversion activity exactly for `convertTocelsius`, each on the call's own input, and no activity for any other name |
| Tools.Dispatch | src/workflows/agent.ts:109-119 | `getWeather` records the output of the weather activity run on the call's input, `convertTocelsius` that of the conversion activity run on the call's input; any other name records `{error: "Unknown tool: <name>"}`, an object with the single field `error` |
| Tools.UnknownToolResultNamesTool | src/workflows/agent.ts:118 | The unknown-tool error names the tool: equal error objects come from equal names |
| Messages.ModelConversation | src/activities/llm.ts:31-33 | The model always sees a non-empty conversation: a non-empty history is used as given, and an absent or empty one becomes the single user message holding the prompt |
| StepLoop.Text | src/workflows/agent.ts:53-170 | Rendering of the progress phases; `StepLoop.ParsePhaseText` reads every rendered string back as its phase, so distinct phases show distinct strings (`StepLoop.TextInjective`) |
| StepLoop.ParsePhaseText | src/workflows/agent.ts:68 | Every progress string, including "Step <n>: Calling LLM..." and "Step <n>: Executing <tool>...", reads back as the phase, step number and tool name it was written from |
| StepLoop.TextInjective | src/workflows/agent.ts:103 | Two phases render as the same progress string exactly when they are the same phase: step number and tool name are recoverable from the string |
| StepLoop.ExecuteTool | src/workflows/agent.ts:102-140 | One pass of the tool loop adds one record. For `getWeather` or `convertTocelsius` it runs that tool's activity once, on the call's input, logs the run and records its output; for any other name it runs no activity and records the error object |
| StepLoop.ExecuteTools | src/workflows/agent.ts:100-141 | The sequential tool loop; its contract is stated by `StepLoop.ExecuteToolsSpec` and `StepLoop.ExecuteToolsActivities` |
| StepLoop.ExecuteToolsSpec | src/workflows/agent.ts:100-141 | The tool loop appends, in request order, one record, one "Executing" progress value and one result part per call; the i-th uses the activity output for record base+i |
| StepLoop.ExecuteToolsActivities | src/workflows/agent.ts:102-119 | The tool loop runs, in request order, the activity of each registered tool it records, on the call's input, and none for any other name (reference `ActivitiesOf`) |
| StepLoop.Step | src/workflows/agent.ts:66-154 | One pass of the loop body; its contract is stated by `StepLoop.StepExit`, `StepLoop.StepAppends` and `StepLoop.StepActivities` |
| StepLoop.StepActivities | src/workflows/agent.ts:100-119 | A round runs one activity per registered tool it records, on that call's input and in request order, and none for other names |
| StepLoop.StepExit | src/workflows/agent.ts:66-84 | A round increments the step count and makes one model call with the history so far. It sets the final response to the reply's text exactly when the reply stops the loop, and leaves it unchanged otherwise |
| StepLoop.StepAppends | src/workflows/agent.ts:94-147 | A round appends the assistant and tool messages (none without tool calls), one record per tool call, and the "Calling LLM" phase followed by one "Executing" phase per tool |
| StepLoop.StepPairsCallsWithResults | src/workflows/agent.ts:87-147 | A round with k tool calls appends exactly two messages: an assistant message with the k call parts in request order, then a tool message with k result parts whose call ids and tool names match position by position |
| StepLoop.UnknownToolDoesNotStop | src/workflows/agent.ts:109-119 | An unregistered tool is recorded with the error object. Whether the round ends the loop depends only on text together with finish reason "stop"; otherwise the loop continues from the next round |
| StepLoop.Loop | src/workflows/agent.ts:66-155 | `while (stepCount < maxSteps)` with its two breaks, together with `StepLoop.Round`; the contract is stated by `StepLoop.LoopExit` and the other `Loop…` lemmas |
| StepLoop.Round | src/workflows/agent.ts:66-155 | One pass of the loop body, then the rest of the loop unless the reply breaks it; stated by `StepLoop.LoopExit` |
| StepLoop.LoopExit | src/workflows/agent.ts:66-155 | With budget left the loop runs n >= 1 rounds and never passes the budget, making one model call per round. Every reply but the last continues, the last one stops the loop unless the budget ran out, and the final response is the stopping reply's text |
| StepLoop.LoopHistory | src/workflows/agent.ts:94-147 | The loop only appends to the history: the old history followed by exactly the messages of the rounds run, as given by the reference `ExpectedHistory` |
| StepLoop.LoopRecords | src/workflows/agent.ts:124-129 | The loop only appends to the tool records: the old records followed by one record per executed tool call, in request order across rounds (reference `ExpectedRecords`) |
| StepLoop.LoopActivities | src/workflows/agent.ts:100-129 | The loop keeps the activity log equal to the runs its tool records stand for (reference `ActivitiesOf`) |
| StepLoop.LoopProgress | src/workflows/agent.ts:66-103 | The progress log only grows: its old contents stay a prefix, and it gains one phase per round plus one per tool record |
| StepLoop.LoopPhases | src/workflows/agent.ts:103 | Inside the loop the progress variable only shows the start, "Calling LLM" and "Executing" phases |
| StepLoop.LoopKeepsRequests | src/workflows/agent.ts:72-75 | The loop never rewrites a model call it has already made |
| StepLoop.LoopRequests | src/workflows/agent.ts:72-75 | The model call of each round receives the history accumulated by the rounds before it, and `undefined` while that history is empty |
| StepLoop.RunLoop | src/workflows/agent.ts:58-155 | From the workflow's initial variables: 1 <= totalSteps <= maxSteps for a positive budget and 0 rounds otherwise, one model call per round. No reply before the last stops the loop, the last one stops it when steps remain, and the final response is the stopping reply's text or empty |
| StepLoop.RunLoopPhases | src/workflows/agent.ts:53 | A run's progress log starts at "Starting AI agent..." and shows only loop phases |
| StepLoop.RunLoopTranscript | src/workflows/agent.ts:59-147 | Over a run, history and records are exactly the reference sequences from empty, and the progress log has one entry for the start, one per round and one per tool record |
| StepLoop.RunLoopActivities | src/workflows/agent.ts:100-129 | Over a run, the tool activities run are exactly the recorded calls of registered tools, each once, on its recorded input, in record order; calls of other names run none |
| StepLoop.RunLoopRequests | src/workflows/agent.ts:72-75 | Round i's call carries the history of the i rounds before it. The first call passes `undefined`, so the model sees exactly the user's prompt |
| BatchAgent.RunAgent | src/workflows/agent.ts:157-177 | The step bounds. Exactly one extra model call is made exactly when the loop ended without a non-empty answer, including a first reply with no tools and empty text. The returned response is then that call's text, otherwise the loop's answer. Progress ends "Generating final response..." (only then), "Completed!" |
| BatchAgent.RunAgentTranscript | src/workflows/agent.ts:157-168 | The loop's calls come first with their histories; the summarisation call carries the fixed summary prompt and the complete history; `toolCalls` is one record per executed tool call |
| BatchAgent.FirstAnswerWithoutTools | src/workflows/agent.ts:80-84 | A first reply without tool calls and with text gives `{finalResponse: text, toolCalls: [], totalSteps: 1}` after a single model call with `messages` undefined |
| BatchAgent.EmptyFirstAnswerIsSummarised | src/workflows/agent.ts:158-168 | A first reply with neither tools nor text leads to the summarisation call over the empty history, which the model activity turns into the summary prompt alone |
| StreamingAgent.OnStreamToken | src/workflows/streaming-agent.ts:40-42 | The signal handler keeps the old text as a prefix and adds exactly the token after it |
| StreamingAgent.DeliveryLog | src/workflows/streaming-agent.ts:40-42 | After i deliveries `streamingText` is the starting text followed by the concatenation of the first i tokens |
| StreamingAgent.Deliver | src/workflows/streaming-agent.ts:40-42 | Delivering a sequence of tokens appends their concatenation |
| StreamingAgent.RedeliveryDuplicates | src/workflows/streaming-agent.ts:40-42 | A non-empty token delivered twice is appended twice, which differs from delivering it once: nothing deduplicates |
| StreamingAgent.TextLog | src/workflows/streaming-agent.ts:142-169 | Over a run `streamingText` holds the early deliveries, then the empty text at the reset made just before the streaming call, then after each delivered reply token the concatenation of the tokens so far, ending with all of them |
| StreamingAgent.TextLogGrows | src/workflows/streaming-agent.ts:147-152 | From the reset on, every value of `streamingText` extends every earlier one |
| StreamingAgent.RunStreaming | src/workflows/streaming-agent.ts:142-178 | The step bounds, and only the loop's batch calls besides the single streaming call. That call uses the summary prompt exactly when the loop ended without an answer, otherwise the user's prompt, and it passes the history. `finalResponse` is the streaming call's text; progress ends with the matching streaming phase, then "Completed!" |
| StreamingAgent.StreamingSharesLoop | src/workflows/streaming-agent.ts:54-139 | Both workflows run the same loop: same step count, same tool records (same dispatch and unknown-tool error), same batch calls |
| StreamingAgent.StreamedTextOverridesLoopAnswer | src/workflows/streaming-agent.ts:154-168 | When the loop found an answer and the streamed text differs from it, the streaming workflow returns the streamed text where the batch workflow returns the loop's answer |
| Routes.HandleStart | src/routes/agent.ts:14-16 | A POST endpoint rejects a missing or empty prompt with 400 "prompt is required" before starting anything. Otherwise it starts a workflow with the prompt and no `maxSteps`: the streaming one for `/stream-tokens`, the batch one for the others |
| Routes.StartUsesDefaultBudget | src/routes/agent.ts:24-28 | Every workflow a route starts runs with the default budget of 5 steps |
| Routes.Emit | src/routes/agent.ts:226-231 | Progress: a snapshot is sent exactly when it differs from the last one sent. Tokens: something is sent exactly when the snapshot is longer than the last text sent, and it is the snapshot past that length, never empty. Otherwise the last text sent stays unchanged |
| Routes.OnStatus | src/routes/agent.ts:118-126 | The status check ends the loop exactly for a status other than RUNNING: with `complete` and the result exactly for COMPLETED, and otherwise with `error "Workflow <status>"` |
| Routes.PollOnce | src/routes/agent.ts:110-130 | One pass of a polling loop makes one poll, only appends events, and, from a loop not yet complete, completes it exactly when the poll ends it |
| Routes.Stream | src/routes/agent.ts:109-135 | The polling loop makes at least one poll when polls remain and never more than given, and only appends events |
| Routes.WatchProgress | src/routes/agent.ts:98-139 | `GET /:workflowId/stream` polls at least once and at most as often as given; its events are stated by `Routes.RoutesEndOnce` and `Routes.StreamContents` |
| Routes.StreamProgress | src/routes/agent.ts:160-195 | `POST /stream` sends the started event first and polls at least once; its other events are stated by `Routes.RoutesEndOnce` and `Routes.StreamContents` |
| Routes.StreamTokens | src/routes/agent.ts:216-254 | `POST /stream-tokens` sends the started event first and polls at least once; its other events are stated by `Routes.RoutesEndOnce`, `Routes.StreamContents` and `Routes.ClientReceivesStreamedText` |
| Routes.StreamStops | src/routes/agent.ts:109-135 | A polling loop consumes the polls up to and including the first that ends it (a non-RUNNING status, or any failure on the GET stream), and all of them when none does |
| Routes.StreamEnd | src/routes/agent.ts:118-130 | A loop that ends, ends with the event of the poll that ended it, as given by the reference `EndEvent`: `complete` with the result for COMPLETED, `error "Workflow <status>"` for any other status but RUNNING, and an error with the failure's message for a failed poll on the route that stops on failure |
| Routes.LoopEndsOnce | src/routes/agent.ts:109-135 | A polling loop that has sent no terminal event yet ends with at most one `complete` or `error` event, as its last event. It sends one exactly when one of its polls ends it. No earlier poll has an ending event, and the one sent is the `EndEvent` of the poll that ended the loop |
| Routes.RoutesEndOnce | src/routes/agent.ts:109-248 | Each of the three routes sends at most one `complete` or `error` event, and it is the last event. It is sent exactly when some poll ends the loop. It is `complete{result}` for a COMPLETED status and `error "Workflow <status>"` for another non-RUNNING status. A failed poll gives `error(message)` on `GET /:workflowId/stream` and ends nothing on the two POST streams |
| Routes.StreamContents | src/routes/agent.ts:166-194 | Apart from the started and terminal events, a loop sends exactly what its reducer, folded over the snapshots of the polls it made, sends |
| Routes.ProgressSendsChanges | src/routes/agent.ts:113-116 | The progress reducer sends exactly the snapshots that differ from the snapshot before them (reference `Changes`) and always remembers the newest snapshot |
| Routes.ChangesNeverRepeat | src/routes/agent.ts:170-173 | No two progress events in a row carry the same message, the first differs from what was last sent, and every message was an observed snapshot |
| Routes.PhaseChangesAreSent | src/routes/agent.ts:113-116 | A poll of the workflow's progress sends the new string exactly when the phase changed since the last one sent |
| Routes.RepeatedToolShowsOnce | src/routes/agent.ts:170-173 | A client that polls after a round's model call and then during two calls of the same tool in that round gets a single "Executing" event |
| Routes.TokensReassemble | src/routes/agent.ts:219-231 | While the streamed text only grows, the last text sent followed by the concatenation of the token contents equals the newest snapshot |
| Routes.ShrinkThenGrow | src/routes/agent.ts:226-231 | After the text shrinks, nothing is sent until it is longer than the last text sent, and then only the part past that length |
| Routes.ResetHidesStartOfNewText | src/routes/agent.ts:226-231 | A client that had sent "Hello" before a reset, then sees "", "Hi" and "Hi there", sends only "ere" |
| Routes.ClientReceivesStreamedText | src/routes/agent.ts:216-242 | A token client receives all the streaming call's tokens in concatenation, whatever values in between its polls see, provided its last poll sees the final one. Its polls may start with the run, during the loop, when nothing was delivered before the reset; otherwise they start from the reset |

## Left out

- Temporal itself is not modelled: retries, timeouts, heartbeats, deterministic replay, the workflow id and the
  `nanoid` ids. The activities are modelled as returning once, with the value the oracle gives.
- The OpenAI call, the system prompt and the tool schemas are left out. Model replies are the oracle
  `Oracle.llm`, indexed by call number. Only the fallback from an empty history to the prompt message is modelled.
- The weather and Celsius tools are left out because they use random values and floating point. Their outputs are
  the oracle `Oracle.activity`, a function of the run (activity and input) and of the record number, and JSON
  numbers are integers.
- `Date.now()` is left out. Timestamps come from the oracle `Oracle.clock`, indexed by record number.
- `generateWithLLMStreaming` is not part of this model. Its reply is a pair of independent values: the tokens it
  signals and the text it returns. No relation between them is assumed.
- The concurrency between signals and the workflow body is left out. Token delivery is a sequence of appends:
  `early` holds the tokens delivered before the reset and `StreamReply.tokens` those delivered after it. The
  exact moment at which the last token arrives relative to completion is not modelled.
- Log output (`console.log`), the SSE framing and JSON encoding of events, the timers between polls, and the
  Hono and Temporal clients are left out.
- `GET /:workflowId` and the waiting in `POST /execute` for the result are left out: they only forward the
  workflow's status or result.
- The outer "Workflow not found" handler of `GET /:workflowId/stream` is left out: the polls themselves
  carry their failures.
- Prompts in request bodies are strings or absent. Other JSON values, which `!prompt` would also test for
  truthiness, are left out.
- `maxSteps` is an integer or absent. Fractions and `NaN` are left out.
- The route reducers work on arbitrary strings. The workflow's phases reach them only through `StepLoop.Text`,
  in `Routes.PhaseChangesAreSent` and `Routes.RepeatedToolShowsOnce`; the polls are not tied to the moments at
  which the workflow changes phase.
- Routes.Emit: lengths and `substring` positions count characters (Unicode scalar values), not UTF-16 code
  units as JavaScript's `.length` and `substring` do. The two agree on text inside the Basic Multilingual Plane;
  for text with characters outside it the model may send a different suffix, or none.
- Routes.ShrinkThenGrow: the "longer than" comparison counts characters, not UTF-16 code units, for the same
  reason as `Routes.Emit`. It agrees with JavaScript on text inside the Basic Multilingual Plane.
- src/index.ts, src/server.ts, src/worker.ts, src/config/temporal.ts and src/env.ts are not part of this model.
  They repeat the routes or set up servers, connections and configuration.
