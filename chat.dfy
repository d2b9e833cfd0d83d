/** Values shared by the chat client and the streaming relay: conversation
    messages, the wire fragment the relay broadcasts, and the seed
    conversation the client starts from. */
module Chat {

  datatype Option<+T> = None | Some(value: T)

  /** The three roles of the completion API's chat messages. */
  datatype Role = System | User | Assistant

  /** One conversation turn, `{role, content}`. */
  datatype Message = Message(role: Role, content: string)

  /** What the relay sends on "completion-chunk": a text delta and whether
      it closes the current reply. */
  datatype Fragment = Fragment(delta: string, isLast: bool)

  /** The role as it appears on the wire and in captions. */
  function RoleName(r: Role): (name: string)
    ensures |name| > 0
  {
    match r
    case System => "system"
    case User => "user"
    case Assistant => "assistant"
  }

  /** Distinct roles are shown under distinct names. */
  lemma RoleNameInjective(a: Role, b: Role)
    ensures RoleName(a) == RoleName(b) <==> a == b
  {
  }

  /** The hard-coded conversation a session starts from: a system prompt and
      one example exchange. */
  const DEFAULT_MESSAGES: seq<Message> := [
    Message(System, "You are a ping pong machine"),
    Message(User, "Ping?"),
    Message(Assistant, "Pong!")
  ]
}
