/** The values exchanged with the two external services: the language-model
    chat endpoint and the virtualization management REST API. Both are
    outside the model; what they answer is an input to it. */
module External {

  /** What one call to an external service gives back: its payload (a
      session token, a VM identifier, the content of a chat reply) or, when
      the call raises, the text of the exception. */
  datatype Reply = Ok(value: string) | Fail(reason: string)

  datatype Role = System | User | Assistant

  /** One `{"role": ..., "content": ...}` entry of a chat. */
  datatype Message = Message(role: Role, content: string)

  /** The arguments of one `OLLAMA_CLIENT.chat(model=..., messages=...)` call. */
  datatype ChatRequest = ChatRequest(model: string, messages: seq<Message>)
}
