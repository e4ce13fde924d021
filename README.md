# LangGraph multi-agent demo: routing, responders and the dice tool

A Dafny model of the orchestration in `main.py` of the LangGraph multi-agent demo. A
question is appended to the conversation thread together with a system description. A
router model classifies the latest message, and its reply is lower-cased into a route key.
The conditional edge from START sends that key to one of three responder nodes:
`conversation`, a tool-calling agent that can use the `roll_dice` tool; `help_with_coding`;
and `tell_a_story`. Each responder goes straight to END. `print_stream` walks the streamed
states and returns the content of the last message.

Files, one module each:

- `wrappers.dfy` (`Wrappers`): `Option` and `Result`.
- `dice.dfy` (`Dice`): the `roll_dice` tool. Every die reads one raw draw from a supplied
  stream, and `RandInt` models `random.randint` as inclusive at both ends.
- `messages.dfy` (`Messages`): roles, messages, and latest-message extraction.
- `routing.dfy` (`Routing`): the node names, ASCII lower-casing, case-insensitive comparison
  as an independent definition, and the path map of the conditional edge.
- `graph.dfy` (`Graph`): the `StateGraph` builder as a class whose methods update its node,
  edge and branch fields; the workflow built call by call; and the runs that topology allows.
- `app.dfy` (`App`): the chat models as an opaque completion function, the router and the
  responders, the stream of states, the `print_stream` loop as a method proved against a
  specification function, and `ask_stuff`.

The chat models are the parameter `complete: (ChatModel, seq<Message>) -> string`, so the
model's reply is arbitrary. The prebuilt agent behind the `conversation` node is the
parameter `agent`, which gives the messages the agent adds to the state it is handed. The
thread state kept by the checkpointer is the parameter `history`, and the input messages
are appended to it.

## Model

| member | source | states |
|---|---|---|
| Dice.RandInt | main.py:34 | a draw of `randint(1, n)` lies between the two bounds, both included |
| Dice.RandIntReaches | main.py:34 | every value of the range is drawn by some raw draw |
| Dice.RollDice | main.py:31-34 | fails with the `ValueError` message exactly when the die count or the side count is not positive; otherwise returns exactly `num_dice` rolls, each between 1 and `num_sides` |
| Dice.RollDiceReachesEveryOutcome | main.py:34 | for valid arguments, every sequence of `num_dice` faces in `[1, num_sides]` is the result for some draws, so the model rules out no outcome |
| Dice.RollDiceDieReadsOwnDraw | main.py:34 | each die depends on its own draw alone |
| Messages.LatestContentOfAppend | main.py:105 | after messages are appended, the latest content is the content of the last appended message |
| Routing.Lower | main.py:125 | lower-casing keeps the length and leaves no ASCII capital |
| Routing.LowerKeepsLower | main.py:125 | text without capitals is unchanged by lower-casing |
| Routing.LowerIdempotent | main.py:125 | lower-casing an already lower-cased key changes nothing |
| Routing.SameIgnoringCaseIffSameLower | main.py:125 | two replies give the same route key exactly when they differ only in the case of ASCII letters |
| Routing.NodeNameIsLower | main.py:52-54 | the three node names are lower case, so each is its own route key |
| Routing.PathMapIsIdentityOnNodeNames | main.py:181-182 | the path map's keys are exactly the three node names, and each maps to itself |
| Routing.SummarizeIsNoRouteKey | main.py:55 | the declared summarisation node name is not a route key |
| Graph.StateGraph.constructor | main.py:173 | a new builder has no nodes, edges or branches |
| Graph.StateGraph.AddNode | main.py:176-178 | registers the action under the name and changes nothing else |
| Graph.StateGraph.AddEdge | main.py:183-185 | adds the edge and changes nothing else |
| Graph.StateGraph.AddConditionalEdges | main.py:181-182 | sets the source's path map and changes nothing else |
| Graph.BuildWorkflow | main.py:173-185 | the calls of the module build exactly the workflow topology |
| Graph.WorkflowDispatch | main.py:181-182 | START routes a key exactly when the key is a node name, and then to the node of that name |
| Graph.WorkflowNodeGoesToEnd | main.py:176-185 | each responder is registered under its own name, END is its only successor, and it has no conditional edge |
| Graph.WorkflowNodes | main.py:176-178 | the graph registers exactly the three responders, and neither START nor END |
| Graph.WorkflowRunsOneResponder | main.py:181-185 | a path is a run for a key exactly when the key is a node name and the path is START, that node, END |
| App.SupervisorRouting | main.py:105-125 | the route key has no capitals and equals the router model's reply to the latest content, up to letter case |
| App.TellAStory | main.py:138-141 | returns exactly one assistant message, the story model's reply to the latest content |
| App.HelpWithCoding | main.py:154-157 | returns exactly one assistant message, the code model's reply to the latest content |
| App.ResponderReadsOnlyLatest | main.py:138-157 | two states with the same latest content get the same reply from the coding and story responders |
| App.StreamVisitsOneResponder | main.py:176-185 | a run fails exactly when the router's reply is no node name in any letter case; otherwise it takes the path START, node, END and streams the input state and the input state with the node's messages appended; the coding and story nodes append one assistant message |
| App.PrintStream | main.py:88-92 | returns the content of the last message of the last state; fails when a state is empty or the stream is empty |
| App.AskStuffAnswersPrompt | main.py:72-75 | when the router's reply to the prompt names a node, the question succeeds whatever the thread held before; the thread grows by the two input messages and what the node adds, and the reply is the content of the last added message, which for coding and story is that model's answer to the prompt alone |
| App.AskStuffFailsWhenUnroutable | main.py:72-75 | when the router's reply names no node, the question fails with the lower-cased reply as the unroutable key |
| App.PromptExampleReplies | main.py:116-118 | the router prompt's example replies `HELP_WITH_CODING` and `TELL_A_STORY` select the coding and story nodes; `OTHER` lower-cases to `other`, which selects nothing |

## Left out

- The Ollama chat models: their replies are the arbitrary function `complete`, so nothing is assumed about what they answer.
- The prebuilt tool-calling agent of the `conversation` node: its loop of model calls and `roll_dice` calls is not visible here. It is the function `agent`, which may add any number of messages. Only the coding and story nodes are proved to add exactly one.
- The checkpointer and the in-memory store: the thread's earlier messages are the parameter `history`, and the message reducer is taken to append. What the checkpointer saves when a run fails is not modelled.
- The randomness of `random.randint`: draws are supplied, and `RollDiceReachesEveryOutcome` shows that no outcome is excluded. Uniformity is not modelled.
- The text `"Here are the results: ..."` that `roll_dice` builds from the rolls: the model returns the rolls themselves.
- Routing.Lower: models `str.lower()` on ASCII letters only; other characters are kept as they are, whereas Python also lower-cases non-ASCII letters.
- The `StateGraph` library's own validation (duplicate or reserved node names, checks at compile time): `AddNode` and the other builder methods only record what they are given. One conditional edge per source is kept, not one per router function.
- All printing (`print`, `pretty_print`), `draw_mermaid_png` (a file write), the `input()` loop and the `test()` calls.
- Summarisation and compaction: only the constant `SUMMARIZE_CONVERSATION_NODE` exists, and no node or edge uses it.
