/**
 * The graph of the application (main.py:173-185): a `StateGraph` builder that the module
 * mutates through `add_node`, `add_conditional_edges` and `add_edge`, the topology it
 * compiles to, and the paths a run can take through that topology.
 */
module Graph {
  import opened Wrappers
  import opened Routing

  /** The names LangGraph gives the virtual entry and exit vertices. */
  const Start: string := "__start__"
  const End: string := "__end__"

  /**
   * A compiled graph: the registered nodes by name, the plain edges, and for each source
   * vertex the path map of its conditional edge.
   */
  datatype Topology = Topology(
    nodes: map<string, Node>,
    edges: set<(string, string)>,
    branches: map<string, map<string, string>>)

  /** The builder: `StateGraph(MessagesState)` before `compile()`. */
  class StateGraph {
    var nodes: map<string, Node>
    var edges: set<(string, string)>
    var branches: map<string, map<string, string>>

    constructor ()
      ensures nodes == map[] && edges == {} && branches == map[]
    {
      nodes, edges, branches := map[], {}, map[];
    }

    /** `add_node(name, action)`. */
    method AddNode(name: string, action: Node)
      modifies this
      ensures nodes == old(nodes)[name := action]
      ensures edges == old(edges) && branches == old(branches)
    {
      nodes := nodes[name := action];
    }

    /** `add_edge(source, target)`. */
    method AddEdge(source: string, target: string)
      modifies this
      ensures edges == old(edges) + {(source, target)}
      ensures nodes == old(nodes) && branches == old(branches)
    {
      edges := edges + {(source, target)};
    }

    /** `add_conditional_edges(source, router, pathMap)`. */
    method AddConditionalEdges(source: string, pathMap: map<string, string>)
      modifies this
      ensures branches == old(branches)[source := pathMap]
      ensures nodes == old(nodes) && edges == old(edges)
    {
      branches := branches[source := pathMap];
    }

    /** The topology `compile()` freezes. */
    function Compile(): Topology
      reads this
    {
      Topology(nodes, edges, branches)
    }
  }

  /** The topology main.py builds. */
  function Workflow(): Topology
  {
    Topology(
      map[ConversationNode := Conversation, CodingNode := Coding, StoryNode := Story],
      {(ConversationNode, End), (CodingNode, End), (StoryNode, End)},
      map[Start := PathMap])
  }

  /** The module-level construction of `workflow`, call by call. */
  method BuildWorkflow() returns (g: StateGraph)
    ensures fresh(g)
    ensures g.Compile() == Workflow()
  {
    g := new StateGraph();
    g.AddNode(ConversationNode, Conversation);
    g.AddNode(CodingNode, Coding);
    g.AddNode(StoryNode, Story);
    g.AddConditionalEdges(Start, PathMap);
    g.AddEdge(ConversationNode, End);
    g.AddEdge(CodingNode, End);
    g.AddEdge(StoryNode, End);
  }

  /** The targets of the plain edges leaving `v`. */
  function Successors(t: Topology, v: string): set<string>
  {
    set e | e in t.edges && e.0 == v :: e.1
  }

  /** The vertex the conditional edge from START sends the route key `key` to, if any. */
  function Dispatch(t: Topology, key: string): Option<string>
  {
    if Start in t.branches && key in t.branches[Start] then Some(t.branches[Start][key]) else None
  }

  /**
   * `path` is a run of `t` for the route key `key`: it leaves START through the conditional
   * edge, then follows plain edges through registered nodes until it reaches END.
   */
  ghost predicate IsRun(t: Topology, key: string, path: seq<string>)
  {
    2 <= |path| && path[0] == Start && Dispatch(t, key) == Some(path[1]) && path[|path| - 1] == End &&
    forall i :: 1 <= i < |path| - 1 ==> path[i] != End && path[i] in t.nodes && path[i + 1] in Successors(t, path[i])
  }

  /** START of the workflow routes a key exactly when it is a node name, and to that node. */
  lemma WorkflowDispatch(key: string)
    ensures Dispatch(Workflow(), key).Some? <==> exists n: Node :: NodeName(n) == key
    ensures forall n: Node :: Dispatch(Workflow(), key) == Some(NodeName(n)) <==> key == NodeName(n)
  {
    PathMapIsIdentityOnNodeNames(key);
  }

  /** Each node is registered under its own name and has END as its only successor. */
  lemma WorkflowNodeGoesToEnd(n: Node)
    ensures NodeName(n) in Workflow().nodes && Workflow().nodes[NodeName(n)] == n
    ensures Successors(Workflow(), NodeName(n)) == {End}
    ensures NodeName(n) !in Workflow().branches
  {
    var t, name := Workflow(), NodeName(n);
    assert (name, End) in t.edges;
    forall v | v in Successors(t, name)
      ensures v == End
    {
      var e :| e in t.edges && e.0 == name && e.1 == v;
    }
  }

  /** The graph has exactly the three responder nodes. */
  lemma WorkflowNodes(name: string)
    ensures name in Workflow().nodes <==> exists n: Node :: NodeName(n) == name
    ensures Start !in Workflow().nodes && End !in Workflow().nodes
  {
    PathMapIsIdentityOnNodeNames(name);
  }

  /**
   * Every run of the workflow visits exactly one responder, the node named by the route key,
   * and then ends; a key that is no node name has no run at all.
   */
  lemma WorkflowRunsOneResponder(key: string, path: seq<string>)
    ensures IsRun(Workflow(), key, path) <==>
            (exists n: Node :: NodeName(n) == key) && path == [Start, key, End]
  {
    var t := Workflow();
    WorkflowDispatch(key);
    if IsRun(t, key, path) {
      var n: Node :| NodeName(n) == key;
      assert path[1] == key;
      WorkflowNodeGoesToEnd(n);
      assert Start != End;
      assert path[2] == End;
      assert |path| == 3;
    }
    if exists n: Node :: NodeName(n) == key {
      var n: Node :| NodeName(n) == key;
      WorkflowNodeGoesToEnd(n);
    }
  }
}
