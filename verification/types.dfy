/** The records shared by the whole application (src/types/chat.ts). */
module Types {

  /** Who wrote a message. */
  datatype Role = User | Assistant

  /** One turn of a conversation. Times are milliseconds since the epoch. */
  datatype Message = Message(id: string, content: string, role: Role, timestamp: int)

  /** A persisted conversation. */
  datatype Session = Session(
    id: string,
    title: string,
    createdAt: int,
    updatedAt: int,
    messages: seq<Message>)

  /** The greeting the assistant opens every conversation with. */
  const WELCOME_CONTENT := "Hi, I'm CoPilot, your CBT therapy assistant. How are you feeling today?"

  /** The welcome message, with the id and time the caller allocated for it. */
  function Welcome(id: string, at: int): Message {
    Message(id, WELCOME_CONTENT, Assistant, at)
  }

  predicate IsUser(m: Message) {
    m.role == User
  }
}
