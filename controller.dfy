/**
 The conversation controller: the router that inspects the shape of the
 latest message, the fixed edge table of the message graph, and one turn
 of the graph run to completion. The two chat models are parameters: the
 tool-bound one of the collection phase returns a completion that may
 carry tool calls, the plain one of the generation phase returns text.
 */
module Controller {
  import opened Messages
  import Collection
  import Acknowledgement
  import Generation

  datatype Node = Start | Info | AddToolMessage | Prompt | End

  /**
   The router: a tool-calling assistant message goes to the acknowledgement,
   a user message back to collection, anything else ends the run. It reads
   `messages[-1]`, so the history must not be empty.
   */
  function GetState(messages: seq<Message>): (r: Node)
    requires |messages| > 0
    ensures r == AddToolMessage || r == Info || r == End
    ensures r == AddToolMessage <==> CallsTool(Last(messages))
    ensures r == Info <==> Last(messages).Human?
    ensures r == End <==> !CallsTool(Last(messages)) && !Last(messages).Human?
  {
    if Last(messages).AI? && |Last(messages).toolCalls| > 0 then AddToolMessage
    else if !Last(messages).Human? then End
    else Info
  }

  /** Only the last message matters to the router: nothing earlier in the history does. */
  lemma RouteIgnoresEarlierHistory(a: seq<Message>, b: seq<Message>, m: Message)
    ensures GetState(a + [m]) == GetState(b + [m])
  {
  }

  function Rank(n: Node): nat {
    match n
    case Start => 4
    case Info => 3
    case AddToolMessage => 2
    case Prompt => 1
    case End => 0
  }

  /**
   The edge table: START to info, info by the router, add_tool_message to
   prompt; prompt has no outgoing edge, so the run stops after it.
   */
  function Successor(n: Node, h: seq<Message>): (r: Node)
    requires n != End
    requires n == Info ==> |h| > 0
    ensures r != Start
    ensures r == Info <==> n == Start || (n == Info && Last(h).Human?)
    ensures r == AddToolMessage <==> n == Info && CallsTool(Last(h))
    ensures r == Prompt <==> n == AddToolMessage
    ensures Rank(r) < Rank(n) || r == n == Info
  {
    match n
    case Start => Info
    case Info => GetState(h)
    case AddToolMessage => Prompt
    case Prompt => End
  }

  /** What the tool-bound chat model answers: text and possibly tool calls. */
  datatype Completion = Completion(content: string, toolCalls: seq<ToolCall>)

  /** The history after a run, and the nodes that ran, in order. */
  datatype Trace = Trace(history: seq<Message>, visited: seq<Node>)

  /**
   Runs the graph from node `n`: each node that runs appends exactly one
   message, and the history before the run is never changed.
   */
  function Run(n: Node, h: seq<Message>, info: seq<Message> -> Completion, prompt: seq<Message> -> string): (t: Trace)
    requires n == AddToolMessage ==> |h| > 0 && CallsTool(Last(h))
    ensures |t.history| == |h| + |t.visited|
    ensures h <= t.history
    decreases Rank(n)
  {
    match n
    case End => Trace(h, [])
    case Start => Run(Successor(Start, h), h, info, prompt)
    case Info =>
      var c := info(Collection.MessagesInfo(h));
      var h' := h + [AI(c.content, c.toolCalls)];
      var t := Run(Successor(Info, h'), h', info, prompt);
      Trace(t.history, [Info] + t.visited)
    case AddToolMessage =>
      var h' := h + [Acknowledgement.AddToolMessage(h)];
      var t := Run(Successor(AddToolMessage, h'), h', info, prompt);
      Trace(t.history, [AddToolMessage] + t.visited)
    case Prompt =>
      var h' := h + [AI(prompt(Generation.PromptInput(h)), [])];
      var t := Run(Successor(Prompt, h'), h', info, prompt);
      Trace(t.history, [Prompt] + t.visited)
  }

  /**
   One user turn: the input is appended to the stored history and the graph
   runs from START; the stored history and the user turn stay in front.
   */
  function Turn(h: seq<Message>, input: string, info: seq<Message> -> Completion, prompt: seq<Message> -> string): (t: Trace)
    ensures h + [Human(input)] <= t.history
    ensures |t.history| == |h| + 1 + |t.visited|
  {
    Run(Start, h + [Human(input)], info, prompt)
  }

  /**
   The reply of the collection model, an assistant message carrying the
   model's tool calls; the router never sends it back to collection.
   */
  function Reply(req: seq<Message>, info: seq<Message> -> Completion): (r: Message)
    ensures r.AI? && r.toolCalls == info(Collection.MessagesInfo(req)).toolCalls
    ensures GetState(req + [r]) != Info
  {
    var c := info(Collection.MessagesInfo(req));
    AI(c.content, c.toolCalls)
  }

  /** A reply without tool calls ends the turn right after collection: the bot waits for the user. */
  lemma TurnWithoutToolCall(h: seq<Message>, input: string, info: seq<Message> -> Completion, prompt: seq<Message> -> string)
    requires !CallsTool(Reply(h + [Human(input)], info))
    ensures Turn(h, input, info, prompt) == Trace(h + [Human(input), Reply(h + [Human(input)], info)], [Info])
  {
  }

  /**
   A reply with a tool call is acknowledged with a tool result that answers
   it, and only then does the generation model run, on the history that
   includes that acknowledgement; its reply is the last message.
   */
  lemma TurnWithToolCall(h: seq<Message>, input: string, info: seq<Message> -> Completion, prompt: seq<Message> -> string)
    requires CallsTool(Reply(h + [Human(input)], info))
    ensures var req := h + [Human(input)];
            var reply := Reply(req, info);
            var ack := Tool(Acknowledgement.Acknowledged, reply.toolCalls[0].id);
            Turn(h, input, info, prompt)
              == Trace(req + [reply, ack, AI(prompt(Generation.PromptInput(req + [reply, ack])), [])],
                       [Info, AddToolMessage, Prompt])
  {
    var req := h + [Human(input)];
    var reply := Reply(req, info);
    var h1 := req + [reply];
    assert Successor(Info, h1) == AddToolMessage;
    var ack := Acknowledgement.AddToolMessage(h1);
    assert ack == Tool(Acknowledgement.Acknowledged, reply.toolCalls[0].id);
    var h2 := h1 + [ack];
    var h3 := h2 + [AI(prompt(Generation.PromptInput(h2)), [])];
    assert h2 == req + [reply, ack];
    assert h3 == req + [reply, ack, AI(prompt(Generation.PromptInput(req + [reply, ack])), [])];
    assert Run(Prompt, h2, info, prompt) == Trace(h3, [Prompt]);
    assert Run(AddToolMessage, h1, info, prompt) == Trace(h3, [AddToolMessage, Prompt]);
  }

  /**
   Before the history reaches the generation model, the tool call has been
   answered, the system message carries the arguments just collected, and
   no tool result or tool-calling message is forwarded.
   */
  lemma GenerationSeesAnsweredCall(h: seq<Message>, input: string, info: seq<Message> -> Completion)
    requires CallsTool(Reply(h + [Human(input)], info))
    ensures var req := h + [Human(input)];
            var reply := Reply(req, info);
            var h2 := req + [reply, Acknowledgement.AddToolMessage(req + [reply])];
            && Acknowledgement.Answers(Last(h2), h2[|h2| - 2])
            && Generation.PromptInput(h2)[0] == System(Generation.PromptText(Some(reply.toolCalls[0].args)))
            && forall i :: 1 <= i < |Generation.PromptInput(h2)| ==> Generation.Forwarded(Generation.PromptInput(h2)[i])
  {
    var req := h + [Human(input)];
    var reply := Reply(req, info);
    var ack := Acknowledgement.AddToolMessage(req + [reply]);
    var h2 := req + [reply, ack];
    assert Last(req + [reply]) == reply;
    Generation.LatestArgsAt(h2, |h2| - 2);
    Generation.PromptInputShape(h2);
  }

  /** Every turn ends with a message the router sends to END. */
  lemma TurnEndsAtEnd(h: seq<Message>, input: string, info: seq<Message> -> Completion, prompt: seq<Message> -> string)
    ensures |Turn(h, input, info, prompt).history| > 0
    ensures GetState(Turn(h, input, info, prompt).history) == End
  {
    if CallsTool(Reply(h + [Human(input)], info)) {
      TurnWithToolCall(h, input, info, prompt);
    } else {
      TurnWithoutToolCall(h, input, info, prompt);
    }
  }
}
