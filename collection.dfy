/** The information-collection phase: the history as the tool-bound chat model sees it. */
module Collection {
  import opened Messages

  /** The fixed instruction telling the model which four facts to gather. */
  const Template: string :=
    "Your job is to get information from a user about what type of prompt template they want to create.\n"
    + "\n"
    + "You should get the following information from them:\n"
    + "\n"
    + "- What the objective of the prompt is\n"
    + "- What variables will be passed into the prompt template\n"
    + "- Any constraints for what the output should NOT do\n"
    + "- Any requirements that the output MUST adhere to\n"
    + "If you are not able to discern this info, ask them to clarify! Do not attempt to wildly guess.\n"
    + "After you are able to discern all the information, call the relevant tool."

  /** The instruction goes in front; the history follows unchanged. */
  function MessagesInfo(messages: seq<Message>): (r: seq<Message>)
    ensures |r| == |messages| + 1
    ensures r[0] == System(Template)
    ensures r[1..] == messages
  {
    [System(Template)] + messages
  }

  /** Prepending the instruction leaves the most recent message where the chat model sees it. */
  lemma MessagesInfoKeepsLast(messages: seq<Message>)
    requires |messages| > 0
    ensures Last(MessagesInfo(messages)) == Last(messages)
  {
  }
}
