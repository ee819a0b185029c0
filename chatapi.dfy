/** Shared value types of the chat client: the message record exchanged with
    the model backend, the request handed to the transport and the error the
    transport reports. */
module ChatApi {

  datatype Option<+T> = None | Some(value: T)

  datatype Role = System | User | Assistant

  /** A chat message. `timestamp` is a logical clock reading; the system
      message of a request carries none. */
  datatype Message = Message(role: Role, content: string, timestamp: Option<nat>)

  /** What is handed to the transport: the full message list. */
  datatype Request = Request(messages: seq<Message>)

  /** The transport's error: a code such as "NETWORK" or "RATE_LIMIT", a
      human-readable message, an HTTP-style status (0 when there is none)
      and a hint whether a manual retry makes sense. */
  datatype ChatError = ChatError(code: string, message: string, status: int, canRetry: bool)
}
