/** The tool-acknowledgement step that answers the model's tool call. */
module Acknowledgement {
  import opened Messages

  const Acknowledged: string := "Prompt generated!"

  /** `ack` is a tool result answering the first tool call of `request`. */
  predicate Answers(ack: Message, request: Message) {
    ack.Tool? && CallsTool(request) && ack.toolCallId == request.toolCalls[0].id
  }

  /**
   Builds the acknowledgement for the last message of the state. The source
   indexes `tool_calls[0]` of that message, so it must carry a tool call.
   */
  function AddToolMessage(state: seq<Message>): (r: Message)
    requires |state| > 0 && CallsTool(Last(state))
    ensures r.Tool? && r.content == Acknowledged
    ensures Answers(r, Last(state))
  {
    Tool(Acknowledged, Last(state).toolCalls[0].id)
  }
}
