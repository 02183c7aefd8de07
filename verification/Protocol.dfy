/** Chat messages exchanged with the model provider. */
module Protocol {
  import opened Text
  import opened Json

  datatype Option<+T> = None | Some(value: T)

  datatype Role = System | User | Assistant | Tool

  /** The arguments of a tool call: the text on the wire, and the document it parses to
      (`None` when the text is not JSON). */
  datatype Arguments = Arguments(text: string, value: Option<Json>)

  datatype ToolCall = ToolCall(id: Str, name: Str, arguments: Arguments)

  datatype Content = Text(text: Str) | Parts(parts: seq<string>)

  datatype ChatMessage = ChatMessage(
    role: Role,
    content: Option<Content>,
    toolCalls: Option<seq<ToolCall>>,
    toolCallId: Option<Str>,
    reasoning: Option<Str>)

  function SystemMessage(text: Str): ChatMessage {
    ChatMessage(System, Some(Text(text)), None, None, None)
  }

  function UserMessage(text: Str): ChatMessage {
    ChatMessage(User, Some(Text(text)), None, None, None)
  }

  function AssistantMessage(text: Str): ChatMessage {
    ChatMessage(Assistant, Some(Text(text)), None, None, None)
  }

  function ToolResult(callId: Str, text: Str): ChatMessage {
    ChatMessage(Tool, Some(Text(text)), None, Some(callId), None)
  }
}
