/**
 * The messages of a `MessagesState` and the latest-message extraction that the router
 * and the two single-call responders share (main.py:105, 138, 154).
 */
module Messages {

  /** The originator of a message. */
  datatype Role = System | User | Assistant | Tool

  datatype Message = Message(role: Role, content: string)

  /** The content of the last message, or the empty string when there is none. */
  function LatestContent(messages: seq<Message>): (r: string)
  {
    if messages != [] then messages[|messages| - 1].content else ""
  }

  /** Appending messages makes the last appended one the latest. */
  lemma LatestContentOfAppend(messages: seq<Message>, added: seq<Message>)
    requires added != []
    ensures LatestContent(messages + added) == added[|added| - 1].content
    ensures LatestContent(messages + added) == LatestContent(added)
  {
  }
}
