/**
 * The routing vocabulary of the graph: the three responder nodes and their names
 * (main.py:52-55), the lower-casing `supervisor_routing` applies to the router model's
 * reply (main.py:125) and the path map of the conditional edge from START (main.py:181-182).
 */
module Routing {

  /** The responder nodes of the graph. */
  datatype Node = Conversation | Coding | Story

  const ConversationNode: string := "conversation"
  const CodingNode: string := "help_with_coding"
  const StoryNode: string := "tell_a_story"
  /** Declared beside the others, but no node or edge of the graph uses it. */
  const SummarizeConversationNode: string := "summarize_conversation"

  /** The name a node is registered under. */
  function NodeName(n: Node): string
  {
    match n
    case Conversation => ConversationNode
    case Coding => CodingNode
    case Story => StoryNode
  }

  /** The path map given to `add_conditional_edges`: each route key names its own node. */
  const PathMap: map<string, string> :=
    map[ConversationNode := ConversationNode, CodingNode := CodingNode, StoryNode := StoryNode]

  predicate IsUpper(c: char)
  {
    'A' <= c <= 'Z'
  }

  function LowerChar(c: char): char
  {
    if IsUpper(c) then (c as int + 32) as char else c
  }

  /** No ASCII capital letter occurs in `s`. */
  predicate IsLower(s: string)
  {
    forall i :: 0 <= i < |s| ==> !IsUpper(s[i])
  }

  /** `str.lower()` on ASCII text: every capital letter becomes its small letter. */
  function Lower(s: string): (r: string)
    ensures |r| == |s|
    ensures IsLower(r)
  {
    seq(|s|, i requires 0 <= i < |s| => LowerChar(s[i]))
  }

  /** `upper` is a capital letter and `lower` its small letter. */
  predicate CaseVariants(upper: char, lower: char)
  {
    IsUpper(upper) && lower as int == upper as int + 32
  }

  /** `a` and `b` spell the same text up to the case of ASCII letters. */
  predicate SameIgnoringCase(a: string, b: string)
  {
    |a| == |b| &&
    forall i :: 0 <= i < |a| ==> a[i] == b[i] || CaseVariants(a[i], b[i]) || CaseVariants(b[i], a[i])
  }

  /** Text without capitals is left as it is. */
  lemma LowerKeepsLower(s: string)
    requires IsLower(s)
    ensures Lower(s) == s
  {
  }

  /** Lower-casing twice is lower-casing once. */
  lemma LowerIdempotent(s: string)
    ensures Lower(Lower(s)) == Lower(s)
  {
    LowerKeepsLower(Lower(s));
  }

  /** Two texts lower-case to the same key exactly when they differ only in letter case. */
  lemma SameIgnoringCaseIffSameLower(a: string, b: string)
    ensures SameIgnoringCase(a, b) <==> Lower(a) == Lower(b)
  {
    if Lower(a) == Lower(b) {
      forall i | 0 <= i < |a|
        ensures a[i] == b[i] || CaseVariants(a[i], b[i]) || CaseVariants(b[i], a[i])
      {
        assert Lower(a)[i] == Lower(b)[i];
      }
    }
    if SameIgnoringCase(a, b) {
      assert forall i :: 0 <= i < |a| ==> Lower(a)[i] == Lower(b)[i];
    }
  }

  /** The node names are already in lower case, so they are their own route keys. */
  lemma NodeNameIsLower(n: Node)
    ensures IsLower(NodeName(n))
    ensures Lower(NodeName(n)) == NodeName(n)
  {
    assert IsLower(ConversationNode) && IsLower(CodingNode) && IsLower(StoryNode);
    var name := NodeName(n);
    LowerKeepsLower(name);
  }

  /** The path map holds exactly the three node names, each mapped to itself. */
  lemma PathMapIsIdentityOnNodeNames(key: string)
    ensures key in PathMap <==> exists n: Node :: NodeName(n) == key
    ensures key in PathMap ==> PathMap[key] == key
  {
    if key == ConversationNode {
      assert NodeName(Conversation) == key;
    } else if key == CodingNode {
      assert NodeName(Coding) == key;
    } else if key == StoryNode {
      assert NodeName(Story) == key;
    }
  }

  /** The unused summarisation node name is no route key. */
  lemma SummarizeIsNoRouteKey()
    ensures SummarizeConversationNode !in PathMap
  {
  }
}
