/**
 The chat history the interview bot threads through every graph node: an
 ordered sequence of messages, each a system instruction, a user turn, an
 assistant turn (possibly carrying tool calls) or a tool result.
 */
module Messages {

  datatype Option<T> = None | Some(value: T)

  /** The record the chat model fills in through the declared tool schema. */
  datatype PromptInstructions = PromptInstructions(
    objective: string,
    variables: seq<string>,
    constraints: seq<string>,
    requirements: seq<string>)

  /** One tool-invocation request inside an assistant message. */
  datatype ToolCall = ToolCall(name: string, args: PromptInstructions, id: string)

  datatype Message =
    | System(content: string)
    | Human(content: string)
    | AI(content: string, toolCalls: seq<ToolCall>)
    | Tool(content: string, toolCallId: string)

  /** An assistant message whose tool-call list is non-empty. */
  predicate CallsTool(m: Message) {
    m.AI? && |m.toolCalls| > 0
  }

  /** Some message of the history calls a tool. */
  predicate HasCall(h: seq<Message>) {
    exists i :: 0 <= i < |h| && CallsTool(h[i])
  }

  /** The most recent message, `messages[-1]`. */
  function Last(h: seq<Message>): Message
    requires |h| > 0
  {
    h[|h| - 1]
  }
}
