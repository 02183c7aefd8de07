/** What a turn says and journals, as functions of the world: the conversation before each request,
    and the entries of each step. */
module Dialogue {
  import opened Text
  import opened Protocol
  import opened Entries
  import opened Trail
  import opened TurnLoop
  import opened Course

  // ---------- the conversation ----------

  function BatchMessages(w: World, from: nat, text: Str, reasoning: Str, calls: seq<ToolCall>): seq<ChatMessage>
  {
    [CallMessage(text, reasoning, calls)] + ResultsOf(w, from, calls, |calls|) + NoticesOf(w, from, |calls|)
  }

  /** What a step that goes on adds to the conversation. */
  function StepMessages(w: World, t: seq<Step>, s: Step): seq<ChatMessage>
  {
    match w.reply(|t|)
    case ModelError(_) => []
    case Completion(text, reasoning, calls) =>
      match s
      case Batch(_) => BatchMessages(w, ClockAt(t).tools, text, reasoning, calls)
      case EmptyRetry => [AssistantMessage(w.prompts.emptyPlaceholder), UserMessage(w.prompts.emptyNudge)]
      case Rejection =>
        [AnswerMessage(text, reasoning),
         UserMessage(if w.verdict(|t| + 1).Rejected? then w.verdict(|t| + 1).critique else "")]
      case Last => []
  }

  /** The conversation after some steps. */
  function Conversation(w: World, base: seq<ChatMessage>, t: seq<Step>): seq<ChatMessage>
  {
    if t == [] then base
    else Conversation(w, base, t[..|t| - 1]) + StepMessages(w, t[..|t| - 1], t[|t| - 1])
  }

  lemma ConversationNext(w: World, base: seq<ChatMessage>, t: seq<Step>, s: Step)
    ensures Conversation(w, base, t + [s]) == Conversation(w, base, t) + StepMessages(w, t, s)
  {
    hide StepMessages;
    assert (t + [s])[..|t + [s]| - 1] == t;
  }

  /** The assistant's message with its calls: no content when the text is blank. */
  ghost predicate CallRead(m: ChatMessage, text: Str, reasoning: Str, calls: seq<ToolCall>)
  {
    m == ChatMessage(Assistant, if Blank(text) then None else Some(Text(text)), Some(calls), None,
                     if Blank(reasoning) then None else Some(reasoning))
  }

  /** What a step adds, message by message: after a batch the call message, then for each call what
      its own run put into the context, then the notices of these runs; after a retry two messages. */
  ghost predicate StepRead(w: World, t: seq<Step>, s: Step, more: seq<ChatMessage>)
  {
    w.reply(|t|).Completion? ==>
      var text, reasoning, calls := w.reply(|t|).text, w.reply(|t|).reasoning, w.reply(|t|).toolCalls;
      match s
      case Batch(_) =>
        |more| >= 1 + |calls| && CallRead(more[0], text, reasoning, calls)
        && |more[1..1 + |calls|]| == |calls| && ResultsRead(w, Records(t), calls, more[1..1 + |calls|])
        && NoticesRead(w, Records(t), |calls|, more[1 + |calls|..])
      case EmptyRetry =>
        more == [ChatMessage(Assistant, Some(Text(w.prompts.emptyPlaceholder)), None, None, None),
                 ChatMessage(User, Some(Text(w.prompts.emptyNudge)), None, None, None)]
      case Rejection =>
        w.verdict(|t| + 1).Rejected? ==>
          more == [ChatMessage(Assistant, Some(Text(text)), None, None, if Blank(reasoning) then None else Some(reasoning)),
                   ChatMessage(User, Some(Text(w.verdict(|t| + 1).critique)), None, None, None)]
      case Last => more == []
  }

  lemma BatchRead(w: World, from: nat, text: Str, reasoning: Str, calls: seq<ToolCall>)
    ensures var more, n := BatchMessages(w, from, text, reasoning, calls), |calls|;
      |more| >= 1 + n && CallRead(more[0], text, reasoning, calls)
      && ResultsRead(w, from, calls, more[1..1 + n]) && NoticesRead(w, from, n, more[1 + n..])
  {
    hide Blank, NoticesRead;
    var more, n := BatchMessages(w, from, text, reasoning, calls), |calls|;
    NoticesOfRead(w, from, n);
    assert more[1..1 + n] == ResultsOf(w, from, calls, n) && more[1 + n..] == NoticesOf(w, from, n);
  }

  /** From one request to the next the conversation grows by exactly that. */
  lemma RoundRead(w: World, base: seq<ChatMessage>, t: seq<Step>, s: Step)
    ensures var before, after := Conversation(w, base, t), Conversation(w, base, t + [s]);
      before <= after && StepRead(w, t, s, after[|before|..])
  {
    hide BatchMessages, Conversation, Blank;
    ConversationNext(w, base, t, s);
    var before, more := Conversation(w, base, t), StepMessages(w, t, s);
    assert (before + more)[|before|..] == more;
    match w.reply(|t|)
    case ModelError(_) =>
    case Completion(text, reasoning, calls) => BatchRead(w, Records(t), text, reasoning, calls);
  }

  // ---------- the journal ----------

  /** The entry a model call closes the turn with. */
  function ClosingEntry(w: World, reply: ModelReply): Entry
  {
    match reply
    case ModelError(message) => AssistantEntry(message, "", [], Error)
    case Completion(text, reasoning, _) =>
      if Blank(text) then AssistantEntry(w.prompts.emptyAbort, "", [], Error)
      else AssistantEntry(text, reasoning, [], Stop)
  }

  /** The entry the synthesis closes the turn with: there is one whatever the model replies. */
  function SynthesisEntry(w: World, reply: ModelReply): Entry
  {
    match reply
    case Completion(text, reasoning, _) =>
      AssistantEntry(if Blank(text) then w.prompts.synthesisFallback else text, reasoning, [], Stop)
    case ModelError(_) => AssistantEntry(w.prompts.synthesisFallback, "", [], Stop)
  }

  /** How many calls of a batch run before one is disturbed. */
  function Answered(w: World, clock: Clock, n: nat): (a: nat)
    ensures a <= n
  {
    if n == 0 then 0
    else
      var a := Answered(w, clock, n - 1);
      if a == n - 1 && Undisturbed(w, clock, n - 1) then n else a
  }

  lemma {:induction false} AnsweredIs(w: World, clock: Clock, n: nat, a: nat)
    requires a <= n && AllUndisturbed(w, clock, a) && (a < n ==> !Undisturbed(w, clock, a))
    ensures Answered(w, clock, n) == a
  {
    hide Undisturbed;
    if n > 0 {
      AnsweredIs(w, clock, n - 1, if a == n then n - 1 else a);
    }
  }

  lemma {:induction false} AnsweredUntil(w: World, clock: Clock, n: nat)
    ensures var a := Answered(w, clock, n); AllUndisturbed(w, clock, a) && (a < n ==> !Undisturbed(w, clock, a))
  {
    hide Undisturbed;
    if n > 0 { AnsweredUntil(w, clock, n - 1); }
  }

  /** What a step journals, as far as the writes succeed. */
  function StepEntries(w: World, t: seq<Step>, s: Step): seq<Entry>
  {
    var reply := w.reply(|t|);
    if reply.Completion? && reply.toolCalls == [] && s.EmptyRetry? then []
    else if !w.writes(ClockAt(t).writes) then []
    else if reply.Completion? && reply.toolCalls != [] then
      [AssistantEntry(reply.text, reply.reasoning, reply.toolCalls, ToolUse)]
      + EntriesOf(w, ClockAt(t).tools, reply.toolCalls, Answered(w, BatchClock(t), |reply.toolCalls|))
    else if reply.Completion? && s.Rejection? then [AssistantEntry(reply.text, reply.reasoning, [], CritiqueRejected)]
    else [ClosingEntry(w, reply)]
  }

  lemma BatchStepEntries(w: World, t: seq<Step>, s: Step, n: nat)
    requires w.reply(|t|).Completion? && w.reply(|t|).toolCalls != [] && n <= |w.reply(|t|).toolCalls|
    requires w.writes(ClockAt(t).writes) ==>
      AllUndisturbed(w, BatchClock(t), n) && (n < |w.reply(|t|).toolCalls| ==> !Undisturbed(w, BatchClock(t), n))
    ensures var reply := w.reply(|t|);
      StepEntries(w, t, s) ==
        if !w.writes(ClockAt(t).writes) then []
        else [AssistantEntry(reply.text, reply.reasoning, reply.toolCalls, ToolUse)]
             + EntriesOf(w, ClockAt(t).tools, reply.toolCalls, n)
  {
    hide Undisturbed, AllUndisturbed, EntriesOf, ClockAt;
    if w.writes(ClockAt(t).writes) { AnsweredIs(w, BatchClock(t), |w.reply(|t|).toolCalls|, n); }
  }

  function Journaled(w: World, t: seq<Step>): seq<Entry>
  {
    if t == [] then [] else Journaled(w, t[..|t| - 1]) + StepEntries(w, t[..|t| - 1], t[|t| - 1])
  }

  lemma JournaledNext(w: World, t: seq<Step>, s: Step)
    ensures Journaled(w, t + [s]) == Journaled(w, t) + StepEntries(w, t, s)
  {
    hide StepEntries;
    assert (t + [s])[..|t + [s]| - 1] == t;
  }

  /** What a step journals, entry by entry: a batch its call message and the results of the calls run
      before the first disturbed one; a model error, a third empty completion and an answer one entry
      each, with what closed or rejected it. */
  ghost predicate EntriesStepRead(w: World, t: seq<Step>, s: Step, more: seq<Entry>)
  {
    var written := w.writes(1 + Written(t));
    match w.reply(|t|)
    case ModelError(message) => more == if written then [AssistantEntry(message, "", [], Error)] else []
    case Completion(text, reasoning, calls) =>
      if calls != [] then
        if !written then more == []
        else
          more != [] && more[0] == AssistantEntry(text, reasoning, calls, ToolUse)
          && EntriesRead(w, Records(t), calls, more[1..])
          && RunOn(w, |t| + Records(t) + 1, 2 + Written(t), |more| - 1)
          && (|more| - 1 < |calls| ==> w.cancelled(|t| + Records(t) + |more|) || !w.writes(1 + Written(t) + |more|))
      else
        match s
        case EmptyRetry => more == []
        case Rejection => more == if written then [AssistantEntry(text, reasoning, [], CritiqueRejected)] else []
        case _ =>
          more == if !written then []
                  else if Blank(text) then [AssistantEntry(w.prompts.emptyAbort, "", [], Error)]
                  else [AssistantEntry(text, reasoning, [], Stop)]
  }

  lemma StepEntriesRead(w: World, t: seq<Step>, s: Step)
    ensures EntriesStepRead(w, t, s, StepEntries(w, t, s))
  {
    hide Blank, AllUndisturbed, RunOn, Answered;
    var reply := w.reply(|t|);
    if reply.Completion? && reply.toolCalls != [] {
      AnsweredUntil(w, BatchClock(t), |reply.toolCalls|);
      UndisturbedRead(w, BatchClock(t), Answered(w, BatchClock(t), |reply.toolCalls|));
      var more := StepEntries(w, t, s);
      if more != [] {
        assert more[1..] == EntriesOf(w, ClockAt(t).tools, reply.toolCalls, Answered(w, BatchClock(t), |reply.toolCalls|));
      }
    }
  }

  // ---------- a whole turn ----------

  /** The conversations at the time of each request: one a step, and one more with the prompt of the
      synthesis. */
  ghost predicate Transcript(w: World, base: seq<ChatMessage>, t: seq<Step>, synthesized: bool, snapshots: seq<seq<ChatMessage>>)
  {
    |snapshots| == |t| + (if synthesized then 1 else 0)
    && (forall k :: 0 <= k < |t| ==> snapshots[k] == Conversation(w, base, t[..k]))
    && (synthesized ==> snapshots[|t|] == Conversation(w, base, t) + [UserMessage(w.prompts.synthesis)])
  }

  /** The journal: the prompt, what each step wrote, and the answer to the synthesis. */
  ghost predicate Record(w: World, prompt: Str, t: seq<Step>, synthesized: bool, entries: seq<Entry>)
  {
    entries == [UserEntry(prompt)] + Journaled(w, t) +
      (if synthesized && w.writes(ClockAt(t).writes) then [SynthesisEntry(w, w.reply(|t|))] else [])
  }

  /** Each request of a turn extends the one before by what the step between them says. */
  lemma TranscriptRead(w: World, base: seq<ChatMessage>, t: seq<Step>, synthesized: bool, snapshots: seq<seq<ChatMessage>>, k: nat)
    requires Transcript(w, base, t, synthesized, snapshots) && k < |t| && k + 1 < |snapshots|
    ensures snapshots[k] <= snapshots[k + 1]
    ensures var more := snapshots[k + 1][|snapshots[k]|..];
      if k + 1 < |t| then StepRead(w, t[..k], t[k], more)
      else more != [] && StepRead(w, t[..k], t[k], more[..|more| - 1])
           && more[|more| - 1] == ChatMessage(User, Some(Text(w.prompts.synthesis)), None, None, None)
  {
    hide StepRead, Conversation;
    RoundRead(w, base, t[..k], t[k]);
    assert t[..k] + [t[k]] == t[..k + 1];
    var before, after := Conversation(w, base, t[..k]), Conversation(w, base, t[..k + 1]);
    if k + 1 == |t| {
      assert t[..k + 1] == t;
      var more := snapshots[k + 1][|before|..];
      assert more == after[|before|..] + [UserMessage(w.prompts.synthesis)];
      assert more[..|more| - 1] == after[|before|..];
    }
  }

  /** Each step adds to the journal what it wrote. */
  lemma JournalRead(w: World, t: seq<Step>, k: nat)
    requires k < |t|
    ensures var before, after := Journaled(w, t[..k]), Journaled(w, t[..k + 1]);
      before <= after <= Journaled(w, t) && EntriesStepRead(w, t[..k], t[k], after[|before|..])
  {
    hide EntriesStepRead, Journaled;
    assert t[..k] + [t[k]] == t[..k + 1];
    JournaledNext(w, t[..k], t[k]);
    StepEntriesRead(w, t[..k], t[k]);
    var before, more := Journaled(w, t[..k]), StepEntries(w, t[..k], t[k]);
    assert (before + more)[|before|..] == more;
    JournaledPrefix(w, t, k + 1);
  }

  lemma {:induction false} JournaledPrefix(w: World, t: seq<Step>, k: nat)
    requires k <= |t|
    ensures Journaled(w, t[..k]) <= Journaled(w, t)
    decreases |t| - k
  {
    hide Journaled, StepEntries;
    if k == |t| {
      assert t[..k] == t;
    } else {
      assert t[..k] + [t[k]] == t[..k + 1];
      JournaledNext(w, t[..k], t[k]);
      JournaledPrefix(w, t, k + 1);
    }
  }

  /** The synthesis is answered with the model's text, or with a fixed one when there is none. */
  lemma SynthesisRead(w: World, reply: ModelReply)
    ensures var e := SynthesisEntry(w, reply);
      e.AssistantEntry? && e.calls == [] && e.stop == Stop
      && (reply.Completion? && !Blank(reply.text) ==> e.text == reply.text && e.thinking == reply.reasoning)
      && (reply.Completion? && Blank(reply.text) ==> e.text == w.prompts.synthesisFallback && e.thinking == reply.reasoning)
      && (reply.ModelError? ==> e.text == w.prompts.synthesisFallback && e.thinking == "")
  {
    hide Blank;
  }
}
