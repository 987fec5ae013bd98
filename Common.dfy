/** Failure-carrying wrappers and the chat-history entry shared by every module of the model. */
module Common {

  /** A value that may be absent (Python's `Optional`, `None` as "missing"). */
  datatype Option<+T> = None | Some(value: T)

  /** The outcome of an operation that either produces a value or fails with a message
      (a Python call that returns normally or raises). */
  datatype Result<+T> = Ok(value: T) | Err(message: string)

  /** One entry of a chat history: the dictionary with keys `type` (`'user'`, `'assistant'` or,
      for entries loaded from the message store, `'bot'`), `content` and, on user entries,
      `query_type`. */
  datatype Message = Message(kind: string, content: string, queryType: Option<string>)
}
