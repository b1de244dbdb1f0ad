# Interview bot: message routing and filtering

This project models, in Dafny, the deterministic core of `collect_chatbot.py`. That program is a command-line assistant. It interviews a user about the prompt template they want: its objective, its variables, its constraints and its requirements. It then has a chat model write that template. It is built as a message graph with three nodes:

- `info` calls a chat model with a `PromptInstructions` tool bound to it. The model signals that the interview is complete by calling that tool.
- `add_tool_message` acknowledges the tool call.
- `prompt` calls a plain chat model to write the template.

The model covers:

- the message history, as a tagged union of system, user, assistant (with tool calls) and tool-result messages (`messages.dfy`);
- `get_messages_info`, which puts the fixed collection instruction in front of the history (`collection.dfy`);
- `add_tool_message`, whose result answers the first tool call of the last message (`acknowledgement.dfy`);
- `get_prompt_messages`, which scans the history in one loop (`generation.dfy`). It is modelled as a method with a `for` loop, proved equal to the specification function `PromptInput`. It has lemmas for exclusion, order and exact selection, and for where the arguments come from;
- the router `get_state`, the edge table, and one turn of the graph run to completion (`controller.dfy`). The two chat models are parameters of that turn;
- the quit test of the interactive loop (`session.dfy`).

## Behaviour worth knowing

The comment above `get_prompt_messages` (collect_chatbot.py:65-66) says that only the messages after the tool call are fetched. What the loop actually does depends on which call. It keeps every forwarded message after the FIRST tool call. It takes the arguments from the LAST one, because `tool_call` is overwritten on each call and never reset. The model follows the code. `Generation.EarlierTurnSurvivesSecondCall` shows this on a concrete history: a user turn between two tool calls still reaches the generation model, and the arguments are those of the second call.

## Model

| member | source | states |
|---|---|---|
| `Collection.MessagesInfo` | collect_chatbot.py:37-38 | the result is one longer than the history; its first element is the system message holding the collection template; the rest is the history unchanged |
| `Collection.MessagesInfoKeepsLast` | collect_chatbot.py:37-38 | prepending the instruction leaves the last message of a non-empty history in place |
| `Acknowledgement.AddToolMessage` | collect_chatbot.py:102-107 | needs a last message with a tool call; yields a tool message with content "Prompt generated!" whose id is the id of the first tool call of that last message |
| `Generation.PromptText` | collect_chatbot.py:63 | the generation instruction is the fixed header followed by the rendering of the arguments (`None` when no call was seen) |
| `Generation.Filter` | collect_chatbot.py:70-76 | every message the filter keeps comes from its input and is neither a tool message nor a tool-calling assistant message |
| `Generation.FilterAppend` | collect_chatbot.py:70-76 | the filter distributes over concatenation, so relative order is kept |
| `Generation.FilterSingle` | collect_chatbot.py:71-76 | one message passes exactly when it is neither a tool result nor a tool-calling assistant message |
| `Generation.FilterKeepsForwarded` | collect_chatbot.py:70-76 | every forwarded message of the input appears in the filter's output |
| `Generation.PromptMessages` | collect_chatbot.py:67-77 | the loop, which remembers the latest arguments and collects forwarded messages once a tool call has been seen, returns `PromptInput` of the history |
| `Generation.ScanStep` | collect_chatbot.py:70-76 | reading one message either overwrites the remembered arguments (tool-calling message), or appends the message to the kept list (forwarded message after a call), or changes nothing |
| `Generation.AfterFirstCallSnoc` | collect_chatbot.py:70-76 | a message appended after a history holding a tool call lands in the suffix after the first call; with no call, the suffix stays empty |
| `Generation.KeptSnoc` | collect_chatbot.py:73-76 | a new message is kept exactly when it is forwarded and some earlier message called a tool |
| `Generation.NoCallKeepsNothing` | collect_chatbot.py:75-76 | with no tool call in the history, nothing is kept |
| `Generation.LatestArgsNone` | collect_chatbot.py:68-72 | the remembered arguments are absent exactly when no message of the history calls a tool |
| `Generation.LatestArgsAt` | collect_chatbot.py:71-72 | the arguments are those of the first tool call of the last tool-calling assistant message |
| `Generation.AfterFirstCallAt` | collect_chatbot.py:68-76 | when the first tool call is at position k, what is kept is exactly the filtered suffix strictly after k |
| `Generation.NoCallOnlySystem` | collect_chatbot.py:68-77 | with no tool call, the output is only the system message, built from `None` |
| `Generation.PromptInputShape` | collect_chatbot.py:70-77 | the output starts with the system message that embeds the latest arguments; no later element is a tool message or a tool-calling assistant message |
| `Generation.KeptPositions` | collect_chatbot.py:68-76 | the kept messages are the history's messages at strictly increasing positions; a position is among them exactly when its message is forwarded and an earlier message calls a tool |
| `Generation.EarlierTurnSurvivesSecondCall` | collect_chatbot.py:70-77 | with two tool calls, a user turn between them is still forwarded, and the arguments are those of the second call |
| `Controller.GetState` | collect_chatbot.py:83-88 | for a non-empty history the router yields exactly one of add_tool_message, info and END: add_tool_message exactly when the last message is an assistant message with tool calls, info exactly when it is a user message, END otherwise |
| `Controller.RouteIgnoresEarlierHistory` | collect_chatbot.py:84-87 | the route depends only on the last message |
| `Controller.Successor` | collect_chatbot.py:110-114 | the edge table, read backwards: no edge enters START; info is entered from START or from info after a user message; add_tool_message only from info after a tool-calling message; prompt only from add_tool_message; apart from the info self-loop, every edge strictly descends, so no other cycle exists |
| `Controller.Run` | collect_chatbot.py:96-114 | running the graph appends exactly one message per node that runs and only ever extends the earlier history |
| `Controller.Turn` | collect_chatbot.py:135-139 | one `graph.stream` call with a single user message: the stored history and the user turn stay in front, and one message is added per node that runs |
| `Controller.Reply` | collect_chatbot.py:60 | the collection chain's reply is an assistant message carrying the model's tool calls, and the router never sends it back to `info` |
| `Controller.TurnWithoutToolCall` | collect_chatbot.py:110-114 | a collection reply without tool calls ends the turn after `info` alone; the history gains the user turn and that reply |
| `Controller.TurnWithToolCall` | collect_chatbot.py:110-114 | a collection reply with a tool call runs `info`, `add_tool_message` and `prompt` in that order; the history gains the user turn, the reply, its acknowledgement and the generated template |
| `Controller.GenerationSeesAnsweredCall` | collect_chatbot.py:102-112 | before the generation model runs, the tool call has been answered by a tool message with its id; the system message carries the arguments just collected; no tool message or tool-calling message is forwarded |
| `Controller.TurnEndsAtEnd` | collect_chatbot.py:110-114 | every turn ends on a message that the router sends to END |
| `Session.QuitIsSingleLetter` | collect_chatbot.py:130 | a line quits exactly when it is the single letter `q` or `Q`, the empty line and longer lines included, does not |

## Left out

- The chat-model clients (`ChatOpenAI`, `bind_tools`, the `|` chains) are network calls. They appear as two total function parameters of `Controller.Run`: the tool-bound model returns a `Completion` (text plus tool calls), the plain model returns text. The provider's transport, authentication and quota errors are not modelled; in the source they propagate uncaught and end the process.
- The message-graph runtime and the in-memory checkpointer are an external library. The stored history is a parameter of `Controller.Turn`. The model does not cover message ids, or the reducer that replaces a message with the same id.
- The checkpointer makes each turn start from the previous turn's history. Chaining turns that way is not modelled beyond a single `Turn`.
- The mermaid diagram export and its file write are documentation I/O.
- The interactive loop (`input`, `print`, the uuid thread id, `graph.stream`) is I/O. Only the quit test is kept. End of input, which raises in the source, is not modelled.
- Tool arguments are always a well-formed `PromptInstructions`. The model does not cover schema validation, a missing tool-call id, or arguments of another shape.
- Generation.PromptText: renders the arguments in the shape of Python's `str()` of a dict, without Python's quote choice or escaping. The key order is that of the schema.
- Message classes other than the four modelled (for example generic chat messages or streamed chunks) are not modelled.
- Acknowledgement.AddToolMessage: called without a tool call on the last message, the source raises. That case is a precondition here, and `Controller.Run` only reaches the node when the router has established it.
- Only the first tool call of an assistant message is answered and read, as in the source. Any further calls in the same message are ignored.
- Controller.Turn: the collection model always returns an assistant message, so the info self-loop of the edge table never fires within a turn.
