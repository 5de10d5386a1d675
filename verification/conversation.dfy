/**
 The conversation graph's shared state: an ordered list of labelled messages,
 and the command a node returns to name the next node and the messages to add.
 */
module Conversation {
  import opened Results

  /** Message classes; a worker's reply is deliberately filed as `Human`. */
  datatype Role = Human | Ai | System | ToolResult

  /** A chat message; `name` records which worker produced it, when one did. */
  datatype Message = Message(role: Role, content: string, name: Option<string>)

  /** What a graph node returns: the node to run next and the messages to append. */
  datatype Command = Command(goto: string, update: seq<Message>)

  /** The graph runtime folds a node's update into the conversation by appending it. */
  function Apply(state: seq<Message>, c: Command): (s: seq<Message>)
    ensures |s| == |state| + |c.update|
    ensures s[..|state|] == state
    ensures s[|state|..] == c.update
  {
    state + c.update
  }
}
