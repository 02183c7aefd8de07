/** One turn of the agent: ask the model, run the tools it calls, retry empty completions, let a
    blocking reviewer send an answer back, and close with a final answer or a synthesis. */
module TurnLoop {
  import opened Text
  import opened Protocol
  import opened Entries
  import opened Inflight
  import opened Pairing

  // ---------- the world the loop runs in ----------

  datatype ModelReply =
    | Completion(text: Str, reasoning: Str, toolCalls: seq<ToolCall>)
    | ModelError(message: Str)

  /** `inline` is what enters the context: the output, or a preview when it was offloaded;
      `notice` is the directive the turn guard asks to inject, if any. */
  datatype ToolOutcome = ToolOutcome(output: Str, isError: bool, inline: Str, notice: Option<Str>)

  datatype Reviewer = Reviewer(available: bool, always: bool, blocking: bool)

  datatype Verdict = Approved | Rejected(critique: Str) | Unavailable

  /** The engine's own texts; their wording plays no part in the loop. */
  datatype Prompts = Prompts(
    system: Str, emptyPlaceholder: Str, emptyNudge: Str, emptyAbort: Str, synthesis: Str, synthesisFallback: Str)

  /** The n-th observation of each outside source. */
  datatype World = World(
    modelFound: bool,
    cancelled: nat -> bool,
    writes: nat -> bool,
    reply: nat -> ModelReply,
    tool: nat -> ToolOutcome,
    reviewer: nat -> Reviewer,
    verdict: nat -> Verdict,
    prompts: Prompts)

  /** A cancellation token never resets. */
  ghost predicate Sticky(w: World)
  {
    forall i, j :: 0 <= i <= j && w.cancelled(i) ==> w.cancelled(j)
  }

  datatype Clock = Clock(checks: nat, writes: nat, tools: nat)

  datatype Request = Request(messages: seq<ChatMessage>, tools: bool)

  datatype Event = TurnEnd | AgentSettled

  const MIN_STEPS: nat := 25
  const MIN_TOOL_BUDGET: nat := 8
  const HISTORY_TURNS: nat := 5

  function MaxSteps(configured: nat): nat
  {
    if configured == 0 then USIZE_MAX else if configured < MIN_STEPS then MIN_STEPS else configured
  }

  function ToolBudget(configured: nat): (b: nat)
    ensures b >= 8
  {
    if configured < MIN_TOOL_BUDGET then MIN_TOOL_BUDGET else configured
  }

  /** No step limit when none is configured, and never one under 25; never a tool budget under 8. */
  lemma LimitsRead(configured: nat)
    ensures MaxSteps(0) == USIZE_MAX && (configured > 0 ==> MaxSteps(configured) >= 25)
    ensures configured >= 25 ==> MaxSteps(configured) == configured
    ensures 0 < configured < 25 ==> MaxSteps(configured) == 25
    ensures configured >= 8 ==> ToolBudget(configured) == configured
    ensures configured < 8 ==> ToolBudget(configured) == 8
  {
  }

  const MODIFYING_TOOLS: seq<string> := ["edit", "write", "search_replace", "bash", "managed_bash"]

  predicate AnyModifies(calls: seq<ToolCall>, n: nat)
    requires n <= |calls|
  {
    exists j :: 0 <= j < n && calls[j].name in MODIFYING_TOOLS
  }

  /** The assistant message that carries a batch of calls into the context. */
  function CallMessage(text: Str, reasoning: Str, calls: seq<ToolCall>): ChatMessage
  {
    ChatMessage(Assistant, if Blank(text) then None else Some(Text(text)), Some(calls), None,
      if Blank(reasoning) then None else Some(reasoning))
  }

  function AnswerMessage(text: Str, reasoning: Str): ChatMessage
  {
    AssistantMessage(text).(reasoning := if Blank(reasoning) then None else Some(reasoning))
  }

  // ---------- requests ----------

  /** Every request is one compaction of a prefix of the uncompacted conversation, and the
      conversation only grows. */
  ghost predicate FaithfulRequests(requests: seq<Request>, snapshots: seq<seq<ChatMessage>>, conversation: seq<ChatMessage>)
  {
    |requests| == |snapshots|
    && (forall k :: 0 <= k < |requests| ==> requests[k].messages == Compacted(snapshots[k]) && snapshots[k] <= conversation)
    && (forall j, k :: 0 <= j <= k < |requests| ==> snapshots[j] <= snapshots[k])
  }

  ghost predicate AllPaired(snapshots: seq<seq<ChatMessage>>)
  {
    forall k :: 0 <= k < |snapshots| ==> Paired(snapshots[k])
  }

  /** The working list is the conversation with its first messages folded. */
  ghost predicate Working(active: seq<ChatMessage>, conversation: seq<ChatMessage>, n: nat)
  {
    n <= Cutoff(conversation) && active == FoldFirst(conversation, n)
  }

  lemma {:induction false} FoldFirstOfPrefix(ms: seq<ChatMessage>, more: seq<ChatMessage>, n: nat)
    requires n <= |ms|
    ensures FoldFirst(ms + more, n) == FoldFirst(ms, n) + more
  {
    hide FoldInflight;
    if n == 0 {
    } else {
      FoldFirstOfPrefix(ms, more, n - 1);
    }
  }

  lemma WorkingPush(active: seq<ChatMessage>, conversation: seq<ChatMessage>, n: nat, more: seq<ChatMessage>)
    requires Working(active, conversation, n)
    ensures Working(active + more, conversation + more, n)
  {
    hide FoldFirst;
    CutoffGrows(conversation, more);
    FoldFirstOfPrefix(conversation, more, n);
  }

  lemma WorkingCompact(active: seq<ChatMessage>, conversation: seq<ChatMessage>, n: nat)
    requires Working(active, conversation, n)
    ensures Compacted(active) == Compacted(conversation)
    ensures Working(Compacted(active), conversation, Cutoff(conversation))
  {
    CompactAfterFolding(conversation, n);
  }

  method CompactList(active: seq<ChatMessage>) returns (r: seq<ChatMessage>)
    ensures r == Compacted(active)
  {
    var messages := new ChatMessage[|active|](i requires 0 <= i < |active| => active[i]);
    assert messages[..] == active;
    CompactInflightMessages(messages);
    r := messages[..];
  }

  /** Each request is a prefix of the next one exactly when no message that the cutoff moves past in
      between has anything to fold. */
  lemma RequestPrefixIff(requests: seq<Request>, snapshots: seq<seq<ChatMessage>>, conversation: seq<ChatMessage>, k: nat)
    requires FaithfulRequests(requests, snapshots, conversation) && k + 1 < |requests|
    ensures requests[k].messages <= requests[k + 1].messages <==>
      forall i :: Cutoff(snapshots[k]) <= i < Cutoff(snapshots[k + 1]) && i < |snapshots[k]| ==> NothingToFold(snapshots[k][i])
  {
    hide Compacted, Cutoff, NothingToFold;
    var a, b := snapshots[k], snapshots[k + 1];
    assert b == a + b[|a|..];
    PrefixStableIff(a, b[|a|..]);
  }

  // ---------- one batch of tool calls ----------

  datatype BatchEnd = Complete | Cut | WriteFailed

  function NoticeOf(o: ToolOutcome): seq<ChatMessage>
  {
    match o.notice
    case Some(directive) => [UserMessage(directive)]
    case None => []
  }

  function NoticesOf(w: World, from: nat, n: nat): seq<ChatMessage>
  {
    if n == 0 then [] else NoticesOf(w, from, n - 1) + NoticeOf(w.tool(from + n - 1))
  }

  /** How many of some outcomes ask for a notice. */
  function NoticeCount(w: World, from: nat, n: nat): nat
  {
    if n == 0 then 0 else NoticeCount(w, from, n - 1) + (if w.tool(from + n - 1).notice.Some? then 1 else 0)
  }

  /** One user message for each outcome that asks for one, in the order of the outcomes. */
  ghost predicate NoticesRead(w: World, from: nat, n: nat, notices: seq<ChatMessage>)
  {
    |notices| == NoticeCount(w, from, n)
    && forall j: nat :: j < n && w.tool(from + j).notice.Some? ==>
         NoticeCount(w, from, j) < |notices|
         && notices[NoticeCount(w, from, j)] == ChatMessage(User, Some(Text(w.tool(from + j).notice.value)), None, None, None)
  }

  lemma {:induction false} NoticesOfRead(w: World, from: nat, n: nat)
    ensures NoticesRead(w, from, n, NoticesOf(w, from, n))
  {
    if n > 0 { NoticesOfRead(w, from, n - 1); }
  }

  /** The results answer the calls one by one, each with what its own run put into the context. */
  ghost predicate ResultsRead(w: World, from: nat, calls: seq<ToolCall>, results: seq<ChatMessage>)
  {
    |results| <= |calls|
    && forall j :: 0 <= j < |results| ==>
         results[j] == ChatMessage(Tool, Some(Text(w.tool(from + j).inline)), None, Some(calls[j].id), None)
  }

  /** The journaled results: each call's id and name with its own output. */
  ghost predicate EntriesRead(w: World, from: nat, calls: seq<ToolCall>, entries: seq<Entry>)
  {
    |entries| <= |calls|
    && forall j :: 0 <= j < |entries| ==>
         entries[j] == ToolEntry(calls[j].id, calls[j].name, w.tool(from + j).output, w.tool(from + j).isError)
  }

  lemma {:induction false} NoticesArePaired(w: World, from: nat, n: nat)
    ensures Paired(NoticesOf(w, from, n))
  {
    if n > 0 {
      NoticesArePaired(w, from, n - 1);
      var o := w.tool(from + n - 1);
      PairedConcat(NoticesOf(w, from, n - 1), NoticeOf(o));
      if o.notice.Some? { PairedOne(UserMessage(o.notice.value)); }
    }
  }

  lemma PairedOne(m: ChatMessage)
    requires m.role != Tool && CallsOf(m) == []
    ensures Paired([m])
  {
    PairedBatch(m, [], []);
    assert [m] + [] + [] == [m];
  }

  function ResultOf(w: World, from: nat, c: ToolCall, j: nat): ChatMessage
  {
    ToolResult(c.id, w.tool(from + j).inline)
  }

  function ResultEntry(w: World, from: nat, c: ToolCall, j: nat): Entry
  {
    ToolEntry(c.id, c.name, w.tool(from + j).output, w.tool(from + j).isError)
  }

  function ResultsOf(w: World, from: nat, calls: seq<ToolCall>, n: nat): seq<ChatMessage>
    requires n <= |calls|
  {
    seq(n, j requires 0 <= j < n => ResultOf(w, from, calls[j], j))
  }

  function EntriesOf(w: World, from: nat, calls: seq<ToolCall>, n: nat): seq<Entry>
    requires n <= |calls|
  {
    seq(n, j requires 0 <= j < n => ResultEntry(w, from, calls[j], j))
  }

  /** Call `j` of a batch starts uncancelled, and its result reaches the journal. */
  predicate Undisturbed(w: World, clock: Clock, j: nat)
  {
    !w.cancelled(clock.checks + j) && w.writes(clock.writes + j)
  }

  ghost predicate AllUndisturbed(w: World, clock: Clock, n: nat)
  {
    forall j: nat :: j < n ==> Undisturbed(w, clock, j)
  }

  /** From these looks at the token and writes on, `n` calls run one after another. */
  ghost predicate RunOn(w: World, checks: nat, writes: nat, n: nat)
  {
    (forall i :: checks <= i < checks + n ==> !w.cancelled(i)) && (forall i :: writes <= i < writes + n ==> w.writes(i))
  }

  lemma UndisturbedRead(w: World, clock: Clock, n: nat)
    ensures AllUndisturbed(w, clock, n) <==> RunOn(w, clock.checks, clock.writes, n)
  {
    if AllUndisturbed(w, clock, n) {
      forall i | clock.checks <= i < clock.checks + n ensures !w.cancelled(i) { assert Undisturbed(w, clock, i - clock.checks); }
      forall i | clock.writes <= i < clock.writes + n ensures w.writes(i) { assert Undisturbed(w, clock, i - clock.writes); }
    }
  }

  /** Run the calls one after another, journaling each result, until the token is seen cancelled
      or a journal write fails. Notices are held back until the batch is over. */
  method ExecuteBatch(w: World, calls: seq<ToolCall>, clock: Clock)
    returns (results: seq<ChatMessage>, entries: seq<Entry>, notices: seq<ChatMessage>, end: BatchEnd, after: Clock)
    ensures |results| <= |calls| && results == ResultsOf(w, clock.tools, calls, |results|)
    ensures entries == EntriesOf(w, clock.tools, calls, |results|)
    ensures end != WriteFailed ==> notices == NoticesOf(w, clock.tools, |results|)
    // the same, read result by result
    ensures ResultsRead(w, clock.tools, calls, results) && EntriesRead(w, clock.tools, calls, entries)
    ensures end != WriteFailed ==> NoticesRead(w, clock.tools, |results|, notices)
    // where it stopped
    ensures AllUndisturbed(w, clock, |results|) && RunOn(w, clock.checks, clock.writes, |results|)
    ensures end == Complete <==> |results| == |calls|
    ensures end == Cut ==> w.cancelled(clock.checks + |results|)
    ensures end == WriteFailed ==> !w.cancelled(clock.checks + |results|) && !w.writes(clock.writes + |results|)
    ensures end == Complete ==> after == Clock(clock.checks + |calls|, clock.writes + |calls|, clock.tools + |calls|)
    ensures end == Cut ==> after.checks == clock.checks + |results| + 1
    ensures end == WriteFailed ==> after.writes == clock.writes + |results| + 1
  {
    hide NoticeOf, NoticesRead;
    results, entries, notices, after := [], [], [], clock;
    var k := 0;
    while k < |calls|
      invariant 0 <= k <= |calls| && |results| == k
      invariant results == ResultsOf(w, clock.tools, calls, k) && entries == EntriesOf(w, clock.tools, calls, k)
      invariant notices == NoticesOf(w, clock.tools, k)
      invariant AllUndisturbed(w, clock, k) && RunOn(w, clock.checks, clock.writes, k)
      invariant after == Clock(clock.checks + k, clock.writes + k, clock.tools + k)
    {
      after := after.(checks := after.checks + 1);
      if w.cancelled(after.checks - 1) {
        end := Cut;
        NoticesOfRead(w, clock.tools, k);
        return;
      }
      var outcome := w.tool(after.tools);
      notices := notices + NoticeOf(outcome);
      after := after.(tools := after.tools + 1, writes := after.writes + 1);
      if !w.writes(after.writes - 1) {
        end := WriteFailed;
        return;
      }
      entries := entries + [ToolEntry(calls[k].id, calls[k].name, outcome.output, outcome.isError)];
      results := results + [ToolResult(calls[k].id, outcome.inline)];
      k := k + 1;
    }
    end := Complete;
    NoticesOfRead(w, clock.tools, k);
  }
}
