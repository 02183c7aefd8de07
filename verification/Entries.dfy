/** What a turn writes to the session journal. */
module Entries {
  import opened Text
  import opened Protocol

  datatype StopReason = Stop | Error | ToolUse | CritiqueRejected

  datatype Entry =
    | UserEntry(text: Str)
    | AssistantEntry(text: Str, thinking: Str, calls: seq<ToolCall>, stop: StopReason)
    | ToolEntry(callId: Str, name: Str, output: Str, isError: bool)

  /** The message an entry stands for in the next turn's history. */
  function EntryMessage(e: Entry): ChatMessage
  {
    match e
    case UserEntry(text) => UserMessage(text)
    case AssistantEntry(text, _, calls, _) =>
      AssistantMessage(text).(toolCalls := if calls == [] then None else Some(calls))
    case ToolEntry(callId, _, output, _) => ToolResult(callId, output)
  }

  function Messages(entries: seq<Entry>): (r: seq<ChatMessage>)
    ensures |r| == |entries|
  {
    if entries == [] then [] else Messages(entries[..|entries| - 1]) + [EntryMessage(entries[|entries| - 1])]
  }

  lemma {:induction false} MessagesOfConcat(a: seq<Entry>, b: seq<Entry>)
    ensures Messages(a + b) == Messages(a) + Messages(b)
  {
    if b == [] {
      assert a + b == a;
    } else {
      MessagesOfConcat(a, b[..|b| - 1]);
      assert (a + b)[..|a + b| - 1] == a + b[..|b| - 1];
    }
  }

  lemma {:induction false} MessagesAt(entries: seq<Entry>, i: nat)
    requires i < |entries|
    ensures Messages(entries)[i] == EntryMessage(entries[i])
  {
    if i < |entries| - 1 { MessagesAt(entries[..|entries| - 1], i); }
  }

  /** An assistant entry that ends a turn. */
  predicate Terminal(e: Entry)
  {
    e.AssistantEntry? && (e.stop == Stop || e.stop == Error)
  }
}
