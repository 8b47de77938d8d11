/**
 * The argument shape of `chat_completion` (backend/llm/chat.py), shared by
 * every caller. The completion itself is always a parameter of the caller:
 * a function from a request to the reply text.
 */
module Chat {
  import opened Base

  /** One chat message: a role and its text. */
  datatype Message = Message(role: string, content: string)

  /** The arguments of `chat_completion`. */
  datatype CompletionRequest = CompletionRequest(
    messages: seq<Message>,
    model: string,
    temperature: real,
    maxTokens: Option<nat>)

  /** A request with one user message, the given model, temperature 0 and no token cap. */
  function UserRequest(prompt: string, model: string): (req: CompletionRequest)
    ensures |req.messages| == 1 && req.messages[0] == Message("user", prompt)
    ensures req.model == model && req.temperature == 0.0 && req.maxTokens.None?
  {
    CompletionRequest([Message("user", prompt)], model, 0.0, None)
  }
}
