/** The conversation vocabulary the workflows exchange with the model activity:
    message parts, messages, tool-call requests, model replies and requests. */
module Messages {
  import opened Base

  datatype Role = User | Assistant | Tool

  /** One content part of a message. `toolCallId` correlates a request with its result. */
  datatype Part =
    | TextPart(text: string)
    | ToolCallPart(toolCallId: string, toolName: string, input: Json)
    | ToolResultPart(toolCallId: string, toolName: string, output: Json)

  datatype Message = Message(role: Role, content: seq<Part>)

  /** A tool call the model asks for. The name is whatever the model produced. */
  datatype ToolCallInfo = ToolCallInfo(toolCallId: string, toolName: string, input: Json)

  /** What one batch model call returns. */
  datatype LlmResult = LlmResult(toolCalls: seq<ToolCallInfo>, text: string, finishReason: string)

  /** The arguments of one model call: `messages` is `None` when the caller passes `undefined`. */
  datatype LlmRequest = LlmRequest(prompt: string, messages: Option<seq<Message>>)

  /** The user message the model activity builds from a bare prompt. */
  function PromptMessage(prompt: string): Message
  {
    Message(User, [TextPart(prompt)])
  }

  /** The conversation the model activity actually sends: the history it was given,
      or the prompt as a single user message when that history is absent or empty. */
  function ModelConversation(req: LlmRequest): (conv: seq<Message>)
    ensures |conv| > 0
    ensures req.messages.Some? && |req.messages.value| > 0 ==> conv == req.messages.value
    ensures req.messages.None? || |req.messages.value| == 0 ==> conv == [PromptMessage(req.prompt)]
  {
    match req.messages
    case Some(history) => if |history| > 0 then history else [PromptMessage(req.prompt)]
    case None => [PromptMessage(req.prompt)]
  }
}
