/** Chat messages as the pipelines see them: a role, a text content and the
    tool calls a model reply may carry (`AIMessage.tool_calls`). */
module Chat {
  import opened Wrappers

  /** One requested tool call; `name` is None when the call dict has no "name". */
  datatype ToolCall = ToolCall(name: Option<string>)

  datatype Message = Message(role: string, content: string, toolCalls: seq<ToolCall>)

  /** `AIMessage(content=...)` as the nodes build it: no tool calls. */
  function AiMessage(content: string): Message {
    Message("ai", content, [])
  }

  /** `BaseMessage(role="system", content=...)`. */
  function SystemMessage(content: string): Message {
    Message("system", content, [])
  }

  /** `getattr(msg, "tool_calls", None)` is truthy: a non-empty list. */
  predicate HasToolCalls(m: Message) {
    m.toolCalls != []
  }

  /** `any(getattr(msg, "tool_calls", None) for msg in history)`. */
  predicate AnyToolCalls(history: seq<Message>) {
    exists i :: 0 <= i < |history| && HasToolCalls(history[i])
  }
}
