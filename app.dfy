/**
 * One question to the compiled application (main.py:59-157): the router and the three
 * responders around opaque chat models, the stream of states a run emits, the
 * `print_stream` loop that keeps the last message, and `ask_stuff`, which puts them together.
 *
 * A chat model is the parameter `complete`: whatever it replies to a list of messages.
 * The conversational node is a prebuilt tool-calling agent whose loop is not modelled:
 * it is the parameter `agent`, giving the messages it adds to the state it is handed.
 */
module App {
  import opened Wrappers
  import opened Messages
  import opened Routing
  import opened Graph

  /** The three Ollama models (main.py:42-49). */
  datatype ChatModel = Llama | Mistral | CodeLlama

  function ModelId(m: ChatModel): string
  {
    match m
    case Llama => "llama3.2"
    case Mistral => "mistral"
    case CodeLlama => "codellama"
  }

  /** What a chat model replies to a list of messages. */
  type Completion = (ChatModel, seq<Message>) -> string

  /** The messages the tool-calling agent adds to the state it is given. */
  type Agent = seq<Message> -> seq<Message>

  const BaseSystemDescription: string :=
    "\nRole:\n    You are a helpful chatbot with personal opinions of your own.\n    Keep your response to a paragraph or less.\n"

  const SupervisorPrompt: string :=
    "\n    Your response must always be one of the following options:\n"
    + "    \"conversation\" - used by default.\n"
    + "    \"help_with_coding\" - use if the user is asking for something code-related.\n"
    + "    \"tell_a_story\" - use if the user is asking you tell a story.\n\n"
    + "    Do NOT generate any additional text or explanations.\n"
    + "    Only return one of the above values as the complete response.\n"
    + "    Example inputs and expected outputs:\n"
    + "    - \"Can you help me with a Python script to list all values in a dict\" \U{2192} \"HELP_WITH_CODING\"\n"
    + "    - \"Can you tell me a story about frogs?\" \U{2192} \"TELL_A_STORY\"\n"
    + "    - \"How are you doing?\" \U{2192} \"OTHER\"\n    "

  const StoryPreamble: string := "You are a chatbot that tells a story based on a prompt."
  const CodingPreamble: string := "You assist with writing or explaining code."

  /** The two messages a single-call node sends its model: its preamble and the latest content. */
  function PromptFor(preamble: string, messages: seq<Message>): seq<Message>
  {
    [Message(System, preamble), Message(User, LatestContent(messages))]
  }

  /** `supervisor_routing`: the router model's reply to the latest content, lower-cased. */
  function SupervisorRouting(messages: seq<Message>, complete: Completion): (key: string)
    ensures IsLower(key)
    ensures SameIgnoringCase(key, complete(Llama, PromptFor(SupervisorPrompt, messages)))
  {
    var reply := complete(Llama, PromptFor(SupervisorPrompt, messages));
    SameIgnoringCaseIffSameLower(Lower(reply), reply);
    LowerIdempotent(reply);
    Lower(reply)
  }

  /** `tell_a_story`: one assistant message, the story model's reply to the latest content. */
  function TellAStory(messages: seq<Message>, complete: Completion): (added: seq<Message>)
    ensures |added| == 1 && added[0].role == Assistant
    ensures added[0].content == complete(Mistral, PromptFor(StoryPreamble, messages))
  {
    [Message(Assistant, complete(Mistral, PromptFor(StoryPreamble, messages)))]
  }

  /** `help_with_coding`: one assistant message, the code model's reply to the latest content. */
  function HelpWithCoding(messages: seq<Message>, complete: Completion): (added: seq<Message>)
    ensures |added| == 1 && added[0].role == Assistant
    ensures added[0].content == complete(CodeLlama, PromptFor(CodingPreamble, messages))
  {
    [Message(Assistant, complete(CodeLlama, PromptFor(CodingPreamble, messages)))]
  }

  /** The messages node `n` adds to the state. */
  function RunNode(n: Node, messages: seq<Message>, complete: Completion, agent: Agent): seq<Message>
  {
    match n
    case Conversation => agent(messages)
    case Coding => HelpWithCoding(messages, complete)
    case Story => TellAStory(messages, complete)
  }

  /** The single-call responders read nothing of the state but its latest content. */
  lemma ResponderReadsOnlyLatest(n: Node, a: seq<Message>, b: seq<Message>, complete: Completion, agent: Agent)
    requires n != Conversation
    requires LatestContent(a) == LatestContent(b)
    ensures RunNode(n, a, complete, agent) == RunNode(n, b, complete, agent)
  {
    assert PromptFor(StoryPreamble, a) == PromptFor(StoryPreamble, b);
    assert PromptFor(CodingPreamble, a) == PromptFor(CodingPreamble, b);
  }

  /** Why a run stops: the route key has no target in the path map. */
  datatype RunError = Unroutable(key: string)

  /**
   * `app.stream(..., stream_mode="values")` from the state `input`: the states after each
   * step, that is the input state and the state after the responder the route key selects.
   */
  function Stream(input: seq<Message>, complete: Completion, agent: Agent): Result<seq<seq<Message>>, RunError>
  {
    var key := SupervisorRouting(input, complete);
    match Dispatch(Workflow(), key)
    case None => Err(Unroutable(key))
    case Some(target) =>
      if target in Workflow().nodes then
        Ok([input, input + RunNode(Workflow().nodes[target], input, complete, agent)])
      else
        Err(Unroutable(key))
  }

  /**
   * A run fails exactly when the router's reply is no node name in any letter case. Otherwise
   * it follows the one path START, node, END of the workflow, streams two states, and the
   * second is the first with the node's messages appended; the two single-call nodes append
   * exactly one assistant message.
   */
  lemma StreamVisitsOneResponder(input: seq<Message>, complete: Completion, agent: Agent)
    ensures Stream(input, complete, agent).Err? <==>
            forall n: Node :: !SameIgnoringCase(complete(Llama, PromptFor(SupervisorPrompt, input)), NodeName(n))
    ensures forall n: Node :: SameIgnoringCase(complete(Llama, PromptFor(SupervisorPrompt, input)), NodeName(n)) ==>
              IsRun(Workflow(), SupervisorRouting(input, complete), [Start, NodeName(n), End]) &&
              Stream(input, complete, agent) == Ok([input, input + RunNode(n, input, complete, agent)])
    ensures forall n: Node :: n != Conversation ==>
              (|RunNode(n, input, complete, agent)| == 1 && RunNode(n, input, complete, agent)[0].role == Assistant)
  {
    var reply := complete(Llama, PromptFor(SupervisorPrompt, input));
    var key := SupervisorRouting(input, complete);
    WorkflowDispatch(key);
    forall n: Node
      ensures SameIgnoringCase(reply, NodeName(n)) <==> key == NodeName(n)
    {
      NodeNameIsLower(n);
      SameIgnoringCaseIffSameLower(reply, NodeName(n));
    }
    forall n: Node | key == NodeName(n)
      ensures IsRun(Workflow(), key, [Start, NodeName(n), End])
      ensures Stream(input, complete, agent) == Ok([input, input + RunNode(n, input, complete, agent)])
    {
      WorkflowRunsOneResponder(key, [Start, NodeName(n), End]);
      WorkflowNodeGoesToEnd(n);
    }
  }

  /** The exceptions `print_stream` can raise. */
  datatype PrintError =
    | IndexError      // a state with no messages
    | AttributeError  // an empty stream leaves the initial "" in place, which has no content

  /** What `print_stream` returns for a stream of states: the content of the last message of the last state. */
  function LastStreamed(stream: seq<seq<Message>>): Result<string, PrintError>
  {
    if [] in stream then Err(IndexError)
    else if stream == [] then Err(AttributeError)
    else Ok(stream[|stream| - 1][|stream[|stream| - 1]| - 1].content)
  }

  /** `print_stream`: walks the stream, keeping the last message of each state. */
  method PrintStream(stream: seq<seq<Message>>) returns (r: Result<string, PrintError>)
    ensures r == LastStreamed(stream)
  {
    var message: Option<Message> := None;
    for i := 0 to |stream|
      invariant [] !in stream[..i]
      invariant message == if i == 0 then None else Some(stream[i - 1][|stream[i - 1]| - 1])
    {
      if stream[i] == [] {
        assert stream[i] in stream;
        return Err(IndexError);
      }
      message := Some(stream[i][|stream[i]| - 1]);
    }
    assert stream[..|stream|] == stream;
    match message
    case None => r := Err(AttributeError);
    case Some(m) => r := Ok(m.content);
  }

  /** The thread's state after one successful question, and the reply printed for it. */
  datatype Turn = Turn(reply: string, thread: seq<Message>)

  /** Why a question fails: the run stops, or printing its stream raises. */
  datatype AskError = RunFailed(reason: RunError) | PrintFailed(cause: PrintError)

  /** The state a question starts from: the thread's messages with the system role and the prompt appended. */
  function Input(history: seq<Message>, prompt: string): seq<Message>
  {
    history + [Message(System, BaseSystemDescription), Message(User, prompt)]
  }

  /** `ask_stuff(prompt)` on the thread whose saved messages are `history`. */
  function AskStuff(history: seq<Message>, prompt: string, complete: Completion, agent: Agent): Result<Turn, AskError>
  {
    match Stream(Input(history, prompt), complete, agent)
    case Err(e) => Err(RunFailed(e))
    case Ok(states) =>
      match LastStreamed(states)
      case Err(e) => Err(PrintFailed(e))
      case Ok(reply) => Ok(Turn(reply, states[|states| - 1]))
  }

  /**
   * The router and the responders see the new prompt, whatever the thread held before; a
   * question fails only when the router's reply names no node; the thread keeps its history
   * and grows by the two input messages and what the node adds; the reply is the content
   * of the last message the node added (for the single-call nodes, their model's answer to
   * the prompt).
   */
  lemma AskStuffAnswersPrompt(history: seq<Message>, prompt: string, complete: Completion, agent: Agent, n: Node)
    requires SameIgnoringCase(complete(Llama, PromptFor(SupervisorPrompt, [Message(User, prompt)])), NodeName(n))
    ensures AskStuff(history, prompt, complete, agent).Ok?
    ensures var input := Input(history, prompt);
            var added := RunNode(n, input, complete, agent);
            AskStuff(history, prompt, complete, agent).value.thread == input + added &&
            (added != [] ==> AskStuff(history, prompt, complete, agent).value.reply == added[|added| - 1].content)
    ensures n == Coding ==> AskStuff(history, prompt, complete, agent).value.reply ==
                              complete(CodeLlama, [Message(System, CodingPreamble), Message(User, prompt)])
    ensures n == Story ==> AskStuff(history, prompt, complete, agent).value.reply ==
                             complete(Mistral, [Message(System, StoryPreamble), Message(User, prompt)])
  {
    var input := Input(history, prompt);
    LatestContentOfAppend(history, [Message(System, BaseSystemDescription), Message(User, prompt)]);
    assert PromptFor(SupervisorPrompt, input) == PromptFor(SupervisorPrompt, [Message(User, prompt)]);
    StreamVisitsOneResponder(input, complete, agent);
    var added := RunNode(n, input, complete, agent);
    var states := [input, input + added];
    assert [] !in states;
    if added != [] {
      LatestContentOfAppend(input, added);
    }
  }

  /** A question whose router reply names no node fails with the lower-cased reply as the key. */
  lemma AskStuffFailsWhenUnroutable(history: seq<Message>, prompt: string, complete: Completion, agent: Agent)
    requires forall n: Node :: !SameIgnoringCase(complete(Llama, PromptFor(SupervisorPrompt, [Message(User, prompt)])), NodeName(n))
    ensures AskStuff(history, prompt, complete, agent) ==
            Err(RunFailed(Unroutable(Lower(complete(Llama, [Message(System, SupervisorPrompt), Message(User, prompt)])))))
  {
    var input := Input(history, prompt);
    LatestContentOfAppend(history, [Message(System, BaseSystemDescription), Message(User, prompt)]);
    assert PromptFor(SupervisorPrompt, input) == PromptFor(SupervisorPrompt, [Message(User, prompt)]);
    StreamVisitsOneResponder(input, complete, agent);
  }

  /**
   * The example replies the router prompt lists: the upper-case keys select the coding and
   * story nodes, and "OTHER" selects nothing, so a question answered that way fails.
   */
  lemma PromptExampleReplies()
    ensures Lower("HELP_WITH_CODING") == CodingNode && Dispatch(Workflow(), CodingNode) == Some(CodingNode)
    ensures Lower("TELL_A_STORY") == StoryNode && Dispatch(Workflow(), StoryNode) == Some(StoryNode)
    ensures Lower("OTHER") == "other" && Dispatch(Workflow(), "other") == None
  {
    WorkflowDispatch("other");
  }
}
