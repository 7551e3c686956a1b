/** The records the client and the edge function exchange
    (echo-voice-agent/src/types/index.ts). */
module Types {
  import opened Text

  datatype Role = User | Assistant

  /** A conversation message. Identifiers and timestamps come from the
      browser (`crypto.randomUUID`, `new Date()`) and are parameters here. */
  datatype Message = Message(
    id: string,
    role: Role,
    content: string,
    intent: Option<string>,
    confidence: Option<real>,
    sentiment: Option<real>,
    timestamp: int)

  /** The `data` object the chat-response function answers with. */
  datatype ChatReply = ChatReply(
    response: string,
    intent: string,
    confidence: real,
    sentiment: real,
    handoffNeeded: bool,
    suggestions: seq<string>)
}
