/** Vocabulary shared by the two chat components (ChatPage and ChatBox). */
module Chat {
  import opened Wrappers

  /** The `sender` field of a chat message: `'user'` or `'ai'`. */
  datatype Sender = User | Ai

  /**
   * How the awaited `axios.post('/api/finance', ...)` settles: it resolves
   * with a response whose `data.reply` is present or not (undefined or null),
   * or it rejects (a transport error or a non-2xx status).
   */
  datatype Outcome = Success(reply: Option<string>) | Failure
}
