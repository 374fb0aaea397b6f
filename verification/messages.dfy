/**
  * The conversation messages exchanged between the chat endpoint, the agent
  * graph and the language model, and the `{role, content}` history entries
  * the chat widget sends.
  */
module Messages {
  import opened Builtins
  import opened Catalog

  /** A tool invocation requested by the language model; its arguments are opaque here. */
  datatype ToolCall = ToolCall(id: string, name: string)

  /**
    * The JSON text a tool returned, as the chat endpoint reads it back:
    * `Unparseable` when `JSON.parse` throws (or yields something without
    * properties), otherwise the `products` property when it is an array.
    */
  datatype ToolPayload = Payload(products: Option<seq<ToolProduct>>) | Unparseable

  datatype Message =
    | Human(content: string)
    | Ai(content: string, toolCalls: seq<ToolCall>)
    | System(content: string)
    | Tool(payload: ToolPayload)

  /** `{role, content}` as posted by the chat widget; the role is any string. */
  datatype HistoryEntry = HistoryEntry(role: string, content: string)

  /** An AI message that asks for at least one tool call (`tool_calls?.length` is truthy). */
  predicate RequestsTools(m: Message) {
    m.Ai? && |m.toolCalls| > 0
  }
}
