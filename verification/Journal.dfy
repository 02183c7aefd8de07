/** The session journal: entries printed as JSON documents, one a line, and read back as chat
    messages. Printing a line and parsing it is taken as exact, so a line is its document; a
    line that does not parse is `None`. */
module Journal {
  import opened Text
  import opened Json
  import opened Protocol
  import opened Entries

  // ---------- navigating documents ----------

  function Lookup(fields: Fields, key: string): Option<Json>
  {
    match fields
    case NoField => None
    case Field(k, v, rest) => if k == key then Some(v) else Lookup(rest, key)
  }

  function Get(v: Json, key: string): Option<Json>
  {
    if v.Object? then Lookup(v.fields, key) else None
  }

  function AsText(o: Option<Json>): Option<Str>
  {
    if o.Some? && o.value.String? then Some(o.value.s) else None
  }

  function GetText(v: Json, key: string): Option<Str> { AsText(Get(v, key)) }

  function TextOr(o: Option<Str>, default: Str): Str { if o.Some? then o.value else default }

  function AsItems(o: Option<Json>): Items
  {
    if o.Some? && o.value.Array? then o.value.items else NoItem
  }

  // ---------- writing ----------

  /** What the writer knows besides the entry: the clock, and the model's name and usage. */
  datatype Stamp = Stamp(
    timestamp: Str, millis: nat, provider: Str, model: Str,
    input: nat, output: nat, cacheRead: nat, cacheWrite: nat)

  datatype Record =
    | Message(entry: Entry)
    | ModelChange(provider: Str, modelId: Str, name: Str)
    | ThinkingLevelChange(level: Str)

  function Fit(s: string): Str { if |s| <= USIZE_MAX then s else s[..USIZE_MAX] }

  /** The stored arguments: the parsed document, or the text wrapped as `raw` when not JSON. */
  function StoredArguments(a: Arguments): Json
  {
    if a.value.Some? then a.value.value else Object(Field("raw", String(Fit(a.text)), NoField))
  }

  function TextPart(text: Str): Json
  {
    var fs := Field("text", String(text), NoField);
    Object(Field("type", String("text"), fs))
  }

  function ThinkingPart(thinking: Str): Json
  {
    var fs := Field("thinking", String(thinking), NoField);
    Object(Field("type", String("thinking"), fs))
  }

  function CallPart(c: ToolCall): Json
  {
    var fs := Field("arguments", StoredArguments(c.arguments), NoField);
    var fs := Field("name", String(c.name), fs);
    var fs := Field("id", String(c.id), fs);
    Object(Field("type", String("toolCall"), fs))
  }

  function CallParts(calls: seq<ToolCall>): Items
  {
    if calls == [] then NoItem else Item(CallPart(calls[0]), CallParts(calls[1..]))
  }

  function AssistantParts(text: Str, thinking: Str, calls: seq<ToolCall>): Items
  {
    var rest := if text == "" then CallParts(calls) else Item(TextPart(text), CallParts(calls));
    if thinking == "" then rest else Item(ThinkingPart(thinking), rest)
  }

  function StopText(r: StopReason): Str
  {
    match r
    case Stop => "stop"
    case Error => "error"
    case ToolUse => "toolUse"
    case CritiqueRejected => "critique_rejected"
  }

  function Count(n: nat): Json { Number(Decimal(n)) }

  function Usage(st: Stamp): Json
  {
    var fs := Field("totalTokens", Count(st.input + st.output), NoField);
    var fs := Field("cacheWrite", Count(st.cacheWrite), fs);
    var fs := Field("cacheRead", Count(st.cacheRead), fs);
    var fs := Field("output", Count(st.output), fs);
    Object(Field("input", Count(if st.input >= st.cacheRead then st.input - st.cacheRead else 0), fs))
  }

  function MessageBody(e: Entry, st: Stamp): Json
  {
    var stamp := Field("timestamp", Count(st.millis), NoField);
    match e
    case UserEntry(text) =>
      var fs := Field("content", Array(Item(TextPart(text), NoItem)), stamp);
      Object(Field("role", String("user"), fs))
    case AssistantEntry(text, thinking, calls, stop) =>
      var fs := Field("stopReason", String(StopText(stop)), stamp);
      var fs := Field("usage", Usage(st), fs);
      var fs := Field("model", String(st.model), fs);
      var fs := Field("provider", String(st.provider), fs);
      var fs := Field("api", String("openai-completions"), fs);
      var fs := Field("content", Array(AssistantParts(text, thinking, calls)), fs);
      Object(Field("role", String("assistant"), fs))
    case ToolEntry(callId, name, output, isError) =>
      var fs := Field("isError", Bool(isError), stamp);
      var fs := Field("content", Array(Item(TextPart(output), NoItem)), fs);
      var fs := Field("toolName", String(name), fs);
      var fs := Field("toolCallId", String(callId), fs);
      Object(Field("role", String("toolResult"), fs))
  }

  function RecordType(r: Record): Str
  {
    match r
    case Message(_) => "message"
    case ModelChange(_, _, _) => "model_change"
    case ThinkingLevelChange(_) => "thinking_level_change"
  }

  function RecordTail(r: Record, st: Stamp): Fields
  {
    match r
    case Message(e) => Field("message", MessageBody(e, st), NoField)
    case ModelChange(provider, modelId, name) =>
      var fs := Field("name", String(name), NoField);
      var fs := Field("modelId", String(modelId), fs);
      Field("provider", String(provider), fs)
    case ThinkingLevelChange(level) => Field("thinkingLevel", String(level), NoField)
  }

  /** The document written for a record. */
  function Document(r: Record, id: Str, parent: Option<Str>, st: Stamp): Json
  {
    var fs := Field("timestamp", String(st.timestamp), RecordTail(r, st));
    var fs := Field("parentId", if parent.Some? then String(parent.value) else Null, fs);
    var fs := Field("id", String(id), fs);
    Object(Field("type", String(RecordType(r)), fs))
  }

  // ---------- reading ----------

  /** The `text` parts of a content array. */
  function TextParts(items: Items): seq<Str>
  {
    match items
    case NoItem => []
    case Item(c, rest) =>
      (if GetText(c, "type") == Some("text") && GetText(c, "text").Some? then [GetText(c, "text").value] else [])
      + TextParts(rest)
  }

  function JoinLines(parts: seq<Str>): string
  {
    if parts == [] then "" else if |parts| == 1 then parts[0] else parts[0] + "\n" + JoinLines(parts[1..])
  }

  function LoadedArguments(v: Json, parse: string -> Option<Json>): Arguments
  {
    if v.String? then Arguments(v.s, parse(v.s)) else Arguments(Render(v), Some(v))
  }

  function LoadedCall(c: Json, parse: string -> Option<Json>): ToolCall
  {
    ToolCall(TextOr(GetText(c, "id"), ""), TextOr(GetText(c, "name"), ""),
      LoadedArguments(if Get(c, "arguments").Some? then Get(c, "arguments").value else Null, parse))
  }

  function LoadedCalls(items: Items, parse: string -> Option<Json>): seq<ToolCall>
  {
    match items
    case NoItem => []
    case Item(c, rest) =>
      (if GetText(c, "type") == Some("toolCall") then [LoadedCall(c, parse)] else []) + LoadedCalls(rest, parse)
  }

  /** The chat message a line stands for, if any. */
  function LoadLine(line: Option<Json>, parse: string -> Option<Json>): Option<ChatMessage>
  {
    if line.None? || GetText(line.value, "type") != Some("message") || Get(line.value, "message").None? then None
    else
      var msg := Get(line.value, "message").value;
      var content := AsItems(Get(msg, "content"));
      var text := Fit(JoinLines(TextParts(content)));
      match GetText(msg, "role")
      case Some(role) =>
        if role == "user" then
          if TextParts(content) == [] then None else Some(UserMessage(text))
        else if role == "assistant" then
          var calls := LoadedCalls(content, parse);
          Some(AssistantMessage(text).(toolCalls := if calls == [] then None else Some(calls)))
        else if role == "toolResult" then
          Some(ToolResult(TextOr(GetText(msg, "toolCallId"), ""),
            if TextParts(content) == [] then "(no output)" else text))
        else None
      case None => None
  }

  function LoadAll(lines: seq<Option<Json>>, parse: string -> Option<Json>): seq<ChatMessage>
  {
    if lines == [] then []
    else
      var m := LoadLine(lines[|lines| - 1], parse);
      LoadAll(lines[..|lines| - 1], parse) + (if m.Some? then [m.value] else [])
  }

  // ---------- one line round-trips ----------

  /** The call as it comes back: same id and name; the arguments are the stored document. */
  function ReloadedCall(c: ToolCall, parse: string -> Option<Json>): ToolCall
  {
    ToolCall(c.id, c.name, LoadedArguments(StoredArguments(c.arguments), parse))
  }

  function ReloadedCalls(calls: seq<ToolCall>, parse: string -> Option<Json>): (r: seq<ToolCall>)
    ensures |r| == |calls|
    ensures forall i :: 0 <= i < |calls| ==> r[i] == ReloadedCall(calls[i], parse)
  {
    if calls == [] then [] else [ReloadedCall(calls[0], parse)] + ReloadedCalls(calls[1..], parse)
  }

  /** What the loader gives for an entry: the message, with reasoning gone. */
  function Reloaded(e: Entry, parse: string -> Option<Json>): ChatMessage
  {
    match e
    case UserEntry(text) => UserMessage(text)
    case AssistantEntry(text, _, calls, _) =>
      AssistantMessage(text).(toolCalls := if calls == [] then None else Some(ReloadedCalls(calls, parse)))
    case ToolEntry(callId, _, output, _) => ToolResult(callId, output)
  }

  lemma {:induction false} CallPartsReload(calls: seq<ToolCall>, parse: string -> Option<Json>)
    ensures LoadedCalls(CallParts(calls), parse) == ReloadedCalls(calls, parse)
    ensures TextParts(CallParts(calls)) == []
  {
    if calls == [] {
    } else {
      CallPartsReload(calls[1..], parse);
      CallPartReads(calls[0], parse);
    }
  }

  lemma CallPartReads(c: ToolCall, parse: string -> Option<Json>)
    ensures GetText(CallPart(c), "type") == Some("toolCall")
    ensures LoadedCall(CallPart(c), parse) == ReloadedCall(c, parse)
  {
    var fs := CallPart(c).fields;
    assert Lookup(fs, "id") == Lookup(fs.others, "id") by { assert "type" != "id"; }
    assert Lookup(fs, "name") == Lookup(fs.others.others, "name") by { assert "type" != "name" && "id" != "name"; }
    assert Lookup(fs, "arguments") == Lookup(fs.others.others.others, "arguments") by {
      assert "type" != "arguments" && "id" != "arguments" && "name" != "arguments";
      assert Lookup(fs, "arguments") == Lookup(fs.others, "arguments") == Lookup(fs.others.others, "arguments");
    }
  }

  lemma AssistantPartsReload(text: Str, thinking: Str, calls: seq<ToolCall>, parse: string -> Option<Json>)
    ensures var items := AssistantParts(text, thinking, calls);
      LoadedCalls(items, parse) == ReloadedCalls(calls, parse)
      && TextParts(items) == (if text == "" then [] else [text])
  {
    CallPartsReload(calls, parse);
    PartReads(text);
    PartReads(thinking);
  }

  lemma PartReads(text: Str)
    ensures GetText(TextPart(text), "type") == Some("text") && GetText(TextPart(text), "text") == Some(text)
    ensures GetText(ThinkingPart(text), "type") == Some("thinking")
  {
    var fs := TextPart(text).fields;
    assert Lookup(fs, "text") == Lookup(fs.others, "text") by { assert "type" != "text"; }
  }

  lemma DocumentReads(r: Record, id: Str, parent: Option<Str>, st: Stamp)
    ensures GetText(Document(r, id, parent, st), "type") == Some(RecordType(r))
    ensures GetText(Document(r, id, parent, st), "id") == Some(id)
    ensures GetText(Document(r, id, parent, st), "parentId") == parent
    ensures r.Message? ==> Get(Document(r, id, parent, st), "message") == Some(MessageBody(r.entry, st))
  {
    hide MessageBody, RecordType;
    var fs := Document(r, id, parent, st).fields;
    assert Lookup(fs, "id") == Lookup(fs.others, "id") by { assert "type" != "id"; }
    assert Lookup(fs, "parentId") == Lookup(fs.others.others, "parentId") by {
      assert "type" != "parentId" && "id" != "parentId";
      assert Lookup(fs, "parentId") == Lookup(fs.others, "parentId");
    }
    if r.Message? {
      assert "type" != "message" && "id" != "message" && "parentId" != "message" && "timestamp" != "message";
      assert Lookup(fs, "message") == Lookup(fs.others, "message") == Lookup(fs.others.others, "message")
        == Lookup(fs.others.others.others, "message") == Lookup(fs.others.others.others.others, "message");
    }
  }

  lemma BodyReads(e: Entry, st: Stamp)
    ensures e.UserEntry? ==>
      GetText(MessageBody(e, st), "role") == Some("user")
      && AsItems(Get(MessageBody(e, st), "content")) == Item(TextPart(e.text), NoItem)
    ensures e.AssistantEntry? ==>
      GetText(MessageBody(e, st), "role") == Some("assistant")
      && AsItems(Get(MessageBody(e, st), "content")) == AssistantParts(e.text, e.thinking, e.calls)
    ensures e.ToolEntry? ==>
      GetText(MessageBody(e, st), "role") == Some("toolResult")
      && GetText(MessageBody(e, st), "toolCallId") == Some(e.callId)
      && AsItems(Get(MessageBody(e, st), "content")) == Item(TextPart(e.output), NoItem)
  {
    hide AssistantParts, TextPart, Usage, Count, StopText;
    var fs := MessageBody(e, st).fields;
    assert Lookup(fs, "content") == Lookup(fs.others, "content") by { assert "role" != "content"; }
    if e.ToolEntry? {
      assert Lookup(fs, "toolCallId") == Lookup(fs.others, "toolCallId") by { assert "role" != "toolCallId"; }
      assert "toolCallId" != "content" && "toolName" != "content";
      assert Lookup(fs, "content") == Lookup(fs.others.others, "content") == Lookup(fs.others.others.others, "content");
    }
  }

  /** What the reader does not look at is stored all the same: why the model stopped, which model it
      was and its token counts, the cached part of the prompt not counted twice. */
  lemma AssistantStored(text: Str, thinking: Str, calls: seq<ToolCall>, stop: StopReason, st: Stamp)
    ensures var body := MessageBody(AssistantEntry(text, thinking, calls, stop), st);
      GetText(body, "provider") == Some(st.provider) && GetText(body, "model") == Some(st.model)
      && Get(body, "usage") == Some(Usage(st)) && GetText(body, "stopReason").Some?
      && GetText(body, "stopReason").value ==
           match stop {
             case Stop => "stop"
             case Error => "error"
             case ToolUse => "toolUse"
             case CritiqueRejected => "critique_rejected"
           }
  {
    hide AssistantParts, Usage, Count;
    var f0 := MessageBody(AssistantEntry(text, thinking, calls, stop), st).fields;
    var f3 := f0.others.others.others;
    var f6 := f3.others.others.others;
    assert "role" != "provider" && "content" != "provider" && "api" != "provider";
    assert Lookup(f0, "provider") == Lookup(f0.others, "provider") == Lookup(f0.others.others, "provider") == Lookup(f3, "provider");
    assert "role" != "model" && "content" != "model" && "api" != "model" && "provider" != "model";
    assert Lookup(f0, "model") == Lookup(f0.others, "model") == Lookup(f0.others.others, "model") == Lookup(f3, "model")
      == Lookup(f3.others, "model");
    assert "role" != "usage" && "content" != "usage" && "api" != "usage" && "provider" != "usage" && "model" != "usage";
    assert Lookup(f0, "usage") == Lookup(f0.others, "usage") == Lookup(f0.others.others, "usage") == Lookup(f3, "usage")
      == Lookup(f3.others, "usage") == Lookup(f3.others.others, "usage");
    assert "role" != "stopReason" && "content" != "stopReason" && "api" != "stopReason" && "provider" != "stopReason"
      && "model" != "stopReason" && "usage" != "stopReason";
    assert Lookup(f0, "stopReason") == Lookup(f0.others, "stopReason") == Lookup(f0.others.others, "stopReason") == Lookup(f3, "stopReason");
    assert Lookup(f3, "stopReason") == Lookup(f3.others, "stopReason") == Lookup(f3.others.others, "stopReason") == Lookup(f6, "stopReason");
  }

  lemma UsageStored(st: Stamp)
    ensures Get(Usage(st), "input") == Some(Number(Decimal(if st.input <= st.cacheRead then 0 else st.input - st.cacheRead)))
    ensures Get(Usage(st), "output") == Some(Number(Decimal(st.output)))
    ensures Get(Usage(st), "cacheRead") == Some(Number(Decimal(st.cacheRead)))
    ensures Get(Usage(st), "cacheWrite") == Some(Number(Decimal(st.cacheWrite)))
    ensures Get(Usage(st), "totalTokens") == Some(Number(Decimal(st.input + st.output)))
  {
    hide Decimal;
    var f0 := Usage(st).fields;
    var f2 := f0.others.others;
    assert "input" != "output" && "input" != "cacheRead" && "output" != "cacheRead";
    assert "input" != "cacheWrite" && "output" != "cacheWrite" && "cacheRead" != "cacheWrite";
    assert "input" != "totalTokens" && "output" != "totalTokens" && "cacheRead" != "totalTokens" && "cacheWrite" != "totalTokens";
    assert Lookup(f0, "output") == Lookup(f0.others, "output");
    assert Lookup(f0, "cacheRead") == Lookup(f0.others, "cacheRead") == Lookup(f2, "cacheRead");
    assert Lookup(f0, "cacheWrite") == Lookup(f0.others, "cacheWrite") == Lookup(f2, "cacheWrite") == Lookup(f2.others, "cacheWrite");
    assert Lookup(f0, "totalTokens") == Lookup(f0.others, "totalTokens") == Lookup(f2, "totalTokens") == Lookup(f2.others, "totalTokens")
      == Lookup(f2.others.others, "totalTokens");
  }

  /** With a result the tool's name and whether it failed, with a change of model or of thinking level
      what it changed to. */
  lemma OthersStored(callId: Str, tool: Str, output: Str, isError: bool, provider: Str, modelId: Str, name: Str, level: Str, st: Stamp)
    ensures var body := MessageBody(ToolEntry(callId, tool, output, isError), st);
      GetText(body, "toolCallId") == Some(callId) && GetText(body, "toolName") == Some(tool) && Get(body, "isError") == Some(Bool(isError))
    ensures var fs := RecordTail(ModelChange(provider, modelId, name), st);
      Lookup(fs, "provider") == Some(String(provider)) && Lookup(fs, "modelId") == Some(String(modelId)) && Lookup(fs, "name") == Some(String(name))
    ensures Lookup(RecordTail(ThinkingLevelChange(level), st), "thinkingLevel") == Some(String(level))
  {
    hide TextPart, Count;
    var f0 := MessageBody(ToolEntry(callId, tool, output, isError), st).fields;
    var f2 := f0.others.others;
    assert "role" != "toolCallId" && "role" != "toolName" && "toolCallId" != "toolName";
    assert "role" != "isError" && "toolCallId" != "isError" && "toolName" != "isError" && "content" != "isError";
    assert Lookup(f0, "toolCallId") == Lookup(f0.others, "toolCallId");
    assert Lookup(f0, "toolName") == Lookup(f0.others, "toolName") == Lookup(f2, "toolName");
    assert Lookup(f0, "isError") == Lookup(f0.others, "isError") == Lookup(f2, "isError") == Lookup(f2.others, "isError")
      == Lookup(f2.others.others, "isError");
    var fs := RecordTail(ModelChange(provider, modelId, name), st);
    assert "provider" != "modelId" && "provider" != "name" && "modelId" != "name";
    assert Lookup(fs, "modelId") == Lookup(fs.others, "modelId");
    assert Lookup(fs, "name") == Lookup(fs.others, "name") == Lookup(fs.others.others, "name");
  }

  /** Lines by any writer: a user message without text is no message, a tool result without text has a
      text of its own, and what is missing of its call's id is empty. */
  lemma SparseLines(line: Json, msg: Json, parse: string -> Option<Json>)
    requires GetText(line, "type") == Some("message") && Get(line, "message") == Some(msg)
    requires TextParts(AsItems(Get(msg, "content"))) == []
    ensures GetText(msg, "role") == Some("user") ==> LoadLine(Some(line), parse).None?
    ensures GetText(msg, "role") == Some("toolResult") ==>
      LoadLine(Some(line), parse) ==
        Some(ChatMessage(Tool, Some(Text("(no output)")), None,
                         Some(match GetText(msg, "toolCallId") case Some(id) => id case None => ""), None))
    ensures GetText(msg, "role") == Some("assistant") ==>
      LoadLine(Some(line), parse).Some? && LoadLine(Some(line), parse).value.content == Some(Text(""))
  {
    assert "assistant" != "user" && "toolResult" != "user" && "toolResult" != "assistant";
  }

  /** The thinking stands before the text, and the text before the calls; empty ones are left out. */
  lemma AssistantPartsStored(text: Str, thinking: Str, calls: seq<ToolCall>)
    ensures var items := AssistantParts(text, thinking, calls);
      var rest := if thinking == "" || items.NoItem? then items else items.rest;
      (thinking != "" ==> items.Item? && GetText(items.head, "type") == Some("thinking") && GetText(items.head, "thinking") == Some(thinking))
      && rest == if text == "" then CallParts(calls) else Item(TextPart(text), CallParts(calls))
  {
    hide CallParts, TextPart;
    var fs := ThinkingPart(thinking).fields;
    assert Lookup(fs, "thinking") == Lookup(fs.others, "thinking") by { assert "type" != "thinking"; }
  }

  /** Text parts are joined by newlines, in order. */
  lemma {:induction false} JoinedLines(parts: seq<Str>, last: Str)
    requires parts != []
    ensures JoinLines(parts + [last]) == JoinLines(parts) + "\n" + last && JoinLines([last]) == last
  {
    var all := parts + [last];
    assert all[1..] == parts[1..] + [last] && all[0] == parts[0];
    if |parts| == 1 {
      assert all[1..] == [last];
    } else {
      JoinedLines(parts[1..], last);
      assert parts[0] + "\n" + (JoinLines(parts[1..]) + "\n" + last) == (parts[0] + "\n" + JoinLines(parts[1..])) + "\n" + last;
    }
  }

  /** A record read back: an entry gives its message, anything else gives nothing. */
  lemma LineRoundTrip(r: Record, id: Str, parent: Option<Str>, st: Stamp, parse: string -> Option<Json>)
    ensures LoadLine(Some(Document(r, id, parent, st)), parse) ==
      match r
      case Message(e) => Some(Reloaded(e, parse))
      case _ => None
  {
    hide Document, MessageBody, TextPart, AssistantParts, LoadedCalls;
    DocumentReads(r, id, parent, st);
    match r
    case Message(e) =>
      BodyReads(e, st);
      match e {
        case UserEntry(text) => PartReads(text); OnePart(text);
        case AssistantEntry(text, thinking, calls, _) =>
          AssistantPartsReload(text, thinking, calls, parse);
          assert |ReloadedCalls(calls, parse)| == |calls|;
        case ToolEntry(_, _, output, _) => PartReads(output); OnePart(output);
      }
    case ModelChange(_, _, _) => assert "model_change" != "message";
    case ThinkingLevelChange(_) => assert "thinking_level_change" != "message";
  }

  lemma OnePart(text: Str)
    ensures TextParts(Item(TextPart(text), NoItem)) == [text]
  {
    PartReads(text);
  }

  /** A call's arguments come back with an equal document when they were JSON and not a bare
      string; text that is not JSON comes back wrapped, never equal. */
  lemma ArgumentsReload(c: ToolCall, parse: string -> Option<Json>)
    ensures ReloadedCall(c, parse).id == c.id && ReloadedCall(c, parse).name == c.name
    ensures c.arguments.value.Some? && !c.arguments.value.value.String? ==>
      ReloadedCall(c, parse).arguments == Arguments(Render(c.arguments.value.value), c.arguments.value)
    ensures c.arguments.value.None? && |c.arguments.text| <= USIZE_MAX ==>
      ReloadedCall(c, parse).arguments.value == Some(Object(Field("raw", String(c.arguments.text), NoField)))
    ensures c.arguments.value.None? ==> ReloadedCall(c, parse).arguments.value != c.arguments.value
  {
  }

  // ---------- whole journals ----------

  function ReloadedAll(records: seq<Record>, parse: string -> Option<Json>): seq<ChatMessage>
  {
    if records == [] then []
    else
      var r := records[|records| - 1];
      ReloadedAll(records[..|records| - 1], parse) + (if r.Message? then [Reloaded(r.entry, parse)] else [])
  }

  /** The lines are documents of the records, whatever their ids, parents and stamps. */
  ghost predicate Prints(lines: seq<Option<Json>>, records: seq<Record>)
  {
    |lines| == |records| && forall k :: 0 <= k < |lines| ==> PrintsOne(lines[k], records[k])
  }

  ghost predicate PrintsOne(line: Option<Json>, r: Record)
  {
    exists id, parent, st :: line == Some(Document(r, id, parent, st))
  }

  lemma PrintedReloads(line: Option<Json>, r: Record, parse: string -> Option<Json>)
    requires PrintsOne(line, r)
    ensures LoadLine(line, parse) == if r.Message? then Some(Reloaded(r.entry, parse)) else None
  {
    hide LoadLine, Document, Reloaded;
    var id, parent, st :| line == Some(Document(r, id, parent, st));
    LineRoundTrip(r, id, parent, st, parse);
  }

  /** Loading after any appends gives what was there before, then exactly the user, assistant and
      tool messages appended, in order. */
  lemma {:induction false} JournalRoundTrip(before: seq<Option<Json>>, lines: seq<Option<Json>>, records: seq<Record>,
                                            parse: string -> Option<Json>)
    requires Prints(lines, records)
    ensures LoadAll(before + lines, parse) == LoadAll(before, parse) + ReloadedAll(records, parse)
  {
    hide LoadLine, Document, Reloaded, PrintsOne;
    if lines == [] {
      assert before + lines == before;
    } else {
      var n := |lines| - 1;
      JournalRoundTrip(before, lines[..n], records[..n], parse);
      PrintedReloads(lines[n], records[n], parse);
      assert (before + lines)[..|before + lines| - 1] == before + lines[..n];
    }
  }

  // ---------- the journal object ----------

  /** The id of the last line that has one. */
  function LastId(lines: seq<Option<Json>>): Option<Str>
  {
    if lines == [] then None
    else
      var id := LineId(lines[|lines| - 1]);
      if id.Some? then id else LastId(lines[..|lines| - 1])
  }

  /** The last line that carries an id decides. */
  lemma {:induction false} LastIdRead(lines: seq<Option<Json>>)
    ensures LastId(lines).None? <==> forall k :: 0 <= k < |lines| ==> LineId(lines[k]).None?
    ensures LastId(lines).Some? ==>
      exists k :: 0 <= k < |lines| && LineId(lines[k]) == LastId(lines) && forall j :: k < j < |lines| ==> LineId(lines[j]).None?
  {
    hide LineId;
    if lines != [] && LineId(lines[|lines| - 1]).None? {
      var front := lines[..|lines| - 1];
      LastIdRead(front);
      assert forall k :: 0 <= k < |front| ==> lines[k] == front[k];
      if LastId(front).Some? {
        var k :| 0 <= k < |front| && LineId(front[k]) == LastId(front) && forall j :: k < j < |front| ==> LineId(front[j]).None?;
        assert LineId(lines[k]) == LastId(lines);
      }
    }
  }

  function LineId(line: Option<Json>): Option<Str>
  {
    if line.Some? then GetText(line.value, "id") else None
  }

  /** The file, shared by every journal opened on the session. */
  class JournalFile {
    var lines: seq<Option<Json>>

    constructor ()
      ensures lines == []
    {
      lines := [];
    }
  }

  class SessionJournal {
    const file: JournalFile
    var lastEntryId: Option<Str>

    /** Opening scans the file for the last entry id. */
    constructor (file: JournalFile)
      ensures this.file == file && lastEntryId == LastId(file.lines)
    {
      this.file := file;
      lastEntryId := None;
      new;
      var last: Option<Str> := None;
      for k := 0 to |file.lines|
        invariant last == LastId(file.lines[..k])
      {
        assert file.lines[..k + 1][..k] == file.lines[..k];
        var id := LineId(file.lines[k]);
        if id.Some? { last := id; }
      }
      assert file.lines[..|file.lines|] == file.lines;
      lastEntryId := last;
    }

    /** Append one document as a line; the entry id becomes the next parent. When the write fails
        nothing changes. */
    method AppendEntry(entry: Json, written: bool) returns (ok: bool)
      modifies file, this`lastEntryId
      ensures ok == written
      ensures file.lines == if ok then old(file.lines) + [Some(entry)] else old(file.lines)
      ensures lastEntryId == if ok && LineId(Some(entry)).Some? then LineId(Some(entry)) else old(lastEntryId)
    {
      if !written {
        return false;
      }
      file.lines := file.lines + [Some(entry)];
      var id := GetText(entry, "id");
      if id.Some? { lastEntryId := id; }
      ok := true;
    }

    /** The append operations, one per record; `entryId` is the fresh id. A record that fails to
        be written is no later record's parent. */
    method Append(r: Record, entryId: Str, st: Stamp, written: bool) returns (ok: bool)
      modifies file, this`lastEntryId
      ensures ok == written
      ensures file.lines == if ok then old(file.lines) + [Some(Document(r, entryId, old(lastEntryId), st))] else old(file.lines)
      ensures lastEntryId == if ok then Some(entryId) else old(lastEntryId)
    {
      DocumentReads(r, entryId, lastEntryId, st);
      ok := AppendEntry(Document(r, entryId, lastEntryId, st), written);
    }

    method LoadRawHistoryMessages(parse: string -> Option<Json>) returns (messages: seq<ChatMessage>)
      ensures messages == LoadAll(file.lines, parse)
    {
      messages := [];
      for k := 0 to |file.lines|
        invariant messages == LoadAll(file.lines[..k], parse)
      {
        assert file.lines[..k + 1][..k] == file.lines[..k];
        var m := LoadLine(file.lines[k], parse);
        if m.Some? { messages := messages + [m.value]; }
      }
      assert file.lines[..|file.lines|] == file.lines;
    }
  }

  // ---------- parents ----------

  /** Writers of one session: opening a journal reads the last id, appending uses the writer's
      own. Writers interleave, and a write may fail. */
  datatype Action = Open(writer: nat) | Write(writer: nat, record: Record, id: Str, st: Stamp, written: bool)

  datatype Disk = Disk(lines: seq<Option<Json>>, writers: map<nat, Option<Str>>)

  function Act(d: Disk, a: Action): Disk
  {
    match a
    case Open(w) => d.(writers := d.writers[w := LastId(d.lines)])
    case Write(w, r, id, st, written) =>
      if w !in d.writers || !written then d
      else Disk(d.lines + [Some(Document(r, id, d.writers[w], st))], d.writers[w := Some(id)])
  }

  function AfterActions(d: Disk, actions: seq<Action>): Disk
  {
    if actions == [] then d else Act(AfterActions(d, actions[..|actions| - 1]), actions[|actions| - 1])
  }

  /** A record that reached the file, and the writer it came from. */
  datatype Signed = Signed(writer: nat, record: Record)

  /** The records that a run leaves in the file, in order: those of open writers whose write succeeded. */
  function LogOf(start: seq<Option<Json>>, actions: seq<Action>): seq<Signed>
  {
    if actions == [] then []
    else
      var front, a := actions[..|actions| - 1], actions[|actions| - 1];
      LogOf(start, front) +
        match a
        case Open(_) => []
        case Write(w, r, _, _, written) =>
          if written && w in AfterActions(Disk(start, map[]), front).writers then [Signed(w, r)] else []
  }

  function RecordsOf(log: seq<Signed>): (r: seq<Record>)
    ensures |r| == |log|
  {
    seq(|log|, k requires 0 <= k < |log| => log[k].record)
  }

  lemma {:induction false} RunPrints(start: seq<Option<Json>>, actions: seq<Action>) returns (lines: seq<Option<Json>>)
    ensures AfterActions(Disk(start, map[]), actions).lines == start + lines
    ensures Prints(lines, RecordsOf(LogOf(start, actions)))
  {
    hide Document;
    if actions == [] {
      lines := [];
    } else {
      var front, a := actions[..|actions| - 1], actions[|actions| - 1];
      lines := RunPrints(start, front);
      var d := AfterActions(Disk(start, map[]), front);
      if a.Write? && a.written && a.writer in d.writers {
        var line := Some(Document(a.record, a.id, d.writers[a.writer], a.st));
        assert PrintsOne(line, a.record);
        assert start + (lines + [line]) == d.lines + [line];
        lines := lines + [line];
      }
    }
  }

  /** In every run of writers over one file, interleaved, reopened and with failing writes, loading
      gives what was there before and then the messages of the records written, in order. */
  lemma RunReloads(start: seq<Option<Json>>, actions: seq<Action>, parse: string -> Option<Json>)
    ensures LoadAll(AfterActions(Disk(start, map[]), actions).lines, parse) ==
      LoadAll(start, parse) + ReloadedAll(RecordsOf(LogOf(start, actions)), parse)
  {
    hide *;
    var lines := RunPrints(start, actions);
    JournalRoundTrip(start, lines, RecordsOf(LogOf(start, actions)), parse);
  }

  ghost predicate HasIdBefore(lines: seq<Option<Json>>, k: nat, id: Str)
    requires k <= |lines|
  {
    exists j :: 0 <= j < k && LineId(lines[j]) == Some(id)
  }

  function ParentOf(line: Option<Json>): Option<Str>
  {
    if line.Some? then GetText(line.value, "parentId") else None
  }

  /** Every parent id names a strictly earlier line, from line `from` on. */
  ghost predicate ParentsPointBack(lines: seq<Option<Json>>, from: nat)
  {
    forall k :: from <= k < |lines| && ParentOf(lines[k]).Some? ==> HasIdBefore(lines, k, ParentOf(lines[k]).value)
  }

  ghost predicate WritersKnown(d: Disk)
  {
    forall w :: w in d.writers && d.writers[w].Some? ==> HasIdBefore(d.lines, |d.lines|, d.writers[w].value)
  }

  lemma {:induction false} LastIdIsThere(lines: seq<Option<Json>>)
    requires LastId(lines).Some?
    ensures HasIdBefore(lines, |lines|, LastId(lines).value)
  {
    hide LineId;
    var n := |lines| - 1;
    if LineId(lines[n]).None? {
      LastIdIsThere(lines[..n]);
      var j :| 0 <= j < n && LineId(lines[..n][j]) == LastId(lines);
      assert LineId(lines[j]) == LastId(lines);
    } else {
      assert LineId(lines[n]) == LastId(lines);
    }
  }

  lemma StillBefore(lines: seq<Option<Json>>, more: seq<Option<Json>>, k: nat, id: Str)
    requires k <= |lines| && HasIdBefore(lines, k, id)
    ensures HasIdBefore(lines + more, k, id) && HasIdBefore(lines + more, |lines + more|, id)
  {
    var j :| 0 <= j < k && LineId(lines[j]) == Some(id);
    assert (lines + more)[j] == lines[j];
  }

  lemma ActKeepsParents(d: Disk, a: Action, from: nat)
    requires ParentsPointBack(d.lines, from) && WritersKnown(d)
    ensures ParentsPointBack(Act(d, a).lines, from) && WritersKnown(Act(d, a))
    ensures d.lines <= Act(d, a).lines
  {
    hide Document, GetText, HasIdBefore;
    match a
    case Open(w) =>
      if LastId(d.lines).Some? { LastIdIsThere(d.lines); }
    case Write(w, r, id, st, written) =>
      if w in d.writers && written {
        var line := Some(Document(r, id, d.writers[w], st));
        var d' := Act(d, a);
        DocumentReads(r, id, d.writers[w], st);
        forall k | from <= k < |d'.lines| && ParentOf(d'.lines[k]).Some?
          ensures HasIdBefore(d'.lines, k, ParentOf(d'.lines[k]).value)
        {
          StillBefore(d.lines, [line], k, ParentOf(d'.lines[k]).value);
        }
        forall v | v in d'.writers && d'.writers[v].Some?
          ensures HasIdBefore(d'.lines, |d'.lines|, d'.writers[v].value)
        {
          if v == w { NewestIdIsThere(d.lines, line, id); } else { StillBefore(d.lines, [line], |d.lines|, d'.writers[v].value); }
        }
      }
  }

  lemma NewestIdIsThere(lines: seq<Option<Json>>, line: Option<Json>, id: Str)
    requires LineId(line) == Some(id)
    ensures HasIdBefore(lines + [line], |lines + [line]|, id)
  {
    assert (lines + [line])[|lines|] == line;
  }

  /** However writers open and append, every parent id written points strictly backwards. */
  lemma {:induction false} InterleavedParentsPointBack(start: seq<Option<Json>>, actions: seq<Action>)
    ensures var d := AfterActions(Disk(start, map[]), actions);
      ParentsPointBack(d.lines, |start|) && WritersKnown(d) && start <= d.lines
  {
    hide Act, LineId;
    if actions == [] {
    } else {
      var front := actions[..|actions| - 1];
      InterleavedParentsPointBack(start, front);
      ActKeepsParents(AfterActions(Disk(start, map[]), front), actions[|actions| - 1], |start|);
    }
  }

  /** Each appended line's parent is the id of the last line with an id before it. */
  ghost predicate OneChain(lines: seq<Option<Json>>, from: nat)
  {
    forall k :: from <= k < |lines| ==> ParentOf(lines[k]) == LastId(lines[..k])
  }

  /** A single writer, reopened at any points, leaves one chain. */
  lemma {:induction false} SingleWriterChains(start: seq<Option<Json>>, actions: seq<Action>, w: nat)
    requires forall k :: 0 <= k < |actions| ==> actions[k].writer == w
    ensures var d := AfterActions(Disk(start, map[]), actions);
      start <= d.lines && OneChain(d.lines, |start|) && (w in d.writers ==> d.writers[w] == LastId(d.lines))
  {
    hide Document, LineId, ParentOf;
    if actions == [] {
    } else {
      var front, a := actions[..|actions| - 1], actions[|actions| - 1];
      SingleWriterChains(start, front, w);
      var d := AfterActions(Disk(start, map[]), front);
      if a.Write? && a.written && w in d.writers {
        ChainGrows(d.lines, |start|, a.record, a.id, d.writers[w], a.st);
      }
    }
  }

  lemma ChainGrows(lines: seq<Option<Json>>, from: nat, r: Record, id: Str, parent: Option<Str>, st: Stamp)
    requires from <= |lines| && OneChain(lines, from) && parent == LastId(lines)
    ensures var more := lines + [Some(Document(r, id, parent, st))]; OneChain(more, from) && LastId(more) == Some(id)
  {
    hide Document, GetText;
    var line := Some(Document(r, id, parent, st));
    var more := lines + [line];
    DocumentReads(r, id, parent, st);
    assert more[..|lines|] == lines;
    forall k | from <= k < |more| ensures ParentOf(more[k]) == LastId(more[..k]) {
      if k < |lines| { assert more[..k] == lines[..k]; }
    }
  }
}
