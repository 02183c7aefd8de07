/** The turn loop itself, with what every request and every journal entry obeys. */
module RunTurn {
  import opened Text
  import opened Protocol
  import opened Entries
  import opened Turns
  import opened Prune
  import opened PruneShape
  import opened Inflight
  import opened Pairing
  import opened Trail
  import opened TurnLoop
  import opened Course
  import opened Dialogue

  /** The loop's variables, the requests sent, the entries journaled and the events emitted. */
  datatype Turn = Turn(
    active: seq<ChatMessage>,
    requests: seq<Request>,
    entries: seq<Entry>,
    events: seq<Event>,
    clock: Clock,
    step: nat,
    emptyStreak: nat,
    reviewAttempts: nat,
    modifiedCode: bool,
    trail: seq<Step>)

  /** The same turn without compaction: the conversation, how much of it is folded in the
      working list, and the conversation at the time of each request; and the entries journaled before the loop. */
  datatype Story = Story(
    conversation: seq<ChatMessage>, folded: nat, snapshots: seq<seq<ChatMessage>>, opening: seq<Entry>)

  datatype Outcome = Next | Finished | ModelFailed | JournalFailed | Interrupted

  // ---------- what holds throughout ----------

  ghost predicate NoTerminals(entries: seq<Entry>)
  {
    forall i :: 0 <= i < |entries| ==> !Terminal(entries[i])
  }

  /** One terminal entry, the last, and every batch of calls journaled with all its results. */
  ghost predicate Closed(entries: seq<Entry>)
  {
    entries != [] && Terminal(entries[|entries| - 1]) && NoTerminals(entries[..|entries| - 1])
    && Paired(Messages(entries))
  }

  /** The journal of a turn opens with the user's prompt, its only user entry. */
  ghost predicate OnePrompt(entries: seq<Entry>)
  {
    entries != [] && forall i :: 0 <= i < |entries| ==> (entries[i].UserEntry? <==> i == 0)
  }

  /** Read from left to right each result answers the next open call; the last batch may be cut. */
  ghost predicate InOrder(entries: seq<Entry>)
  {
    Awaited(Messages(entries)).Some?
  }

  lemma PairedInOrder(entries: seq<Entry>)
    requires Paired(Messages(entries))
    ensures InOrder(entries)
  {
    hide Paired, Messages, Awaited;
    PairedIffNothingAwaited(Messages(entries));
  }

  /** So is every beginning of what a turn writes. */
  lemma InOrderSoFar(entries: seq<Entry>, n: nat)
    requires InOrder(entries) && n <= |entries|
    ensures InOrder(entries[..n])
  {
    hide Messages, Awaited;
    assert entries == entries[..n] + entries[n..];
    MessagesOfConcat(entries[..n], entries[n..]);
    AwaitedOfPrefix(Messages(entries[..n]), Messages(entries[n..]));
  }

  ghost predicate Sound(base: seq<ChatMessage>, budget: nat, t: Turn, g: Story, pending: nat)
  {
    Working(t.active, g.conversation, g.folded)
    && FaithfulRequests(t.requests, g.snapshots, g.conversation)
    && (Paired(base) ==> AllPaired(g.snapshots))
    && |t.requests| == |t.trail| + pending == t.step
    && Legal(t.trail, budget)
    && (if t.requests == [] then g.conversation == base else g.snapshots[0] == base)
    && OnePrompt(t.entries)
  }

  /** The turn goes on: the conversation and the journal are in order, and the counters agree
      with the steps taken. */
  ghost predicate Open(base: seq<ChatMessage>, t: Turn, g: Story)
  {
    (Paired(base) ==> Paired(g.conversation))
    && NoTerminals(t.entries) && Paired(Messages(t.entries))
    && !Ended(t.trail) && Records(t.trail) == t.clock.tools
    && Streak(t.trail) == t.emptyStreak <= MAX_EMPTY_RETRIES
    && Rejections(t.trail) == t.reviewAttempts <= MAX_REVIEW_RETRIES
  }

  function Said(g: Story, more: seq<ChatMessage>): Story
  {
    g.(conversation := g.conversation + more)
  }

  lemma SayMore(base: seq<ChatMessage>, budget: nat, t: Turn, g: Story, pending: nat, more: seq<ChatMessage>)
    requires Sound(base, budget, t, g, pending) && t.requests != []
    ensures Sound(base, budget, t.(active := t.active + more), Said(g, more), pending)
  {
    hide FoldFirst, Compacted, Legal;
    WorkingPush(t.active, g.conversation, g.folded, more);
  }

  lemma AddStep(base: seq<ChatMessage>, budget: nat, t: Turn, g: Story, s: Step)
    requires Sound(base, budget, t, g, 1) && MayFollow(t.trail, s, budget)
    ensures Sound(base, budget, t.(trail := t.trail + [s]), g, 0)
  {
    hide FoldFirst, Compacted;
    TakeStep(t.trail, s, budget);
  }

  lemma JournalOne(entries: seq<Entry>, e: Entry)
    requires Paired(Messages(entries)) && !e.ToolEntry? && (e.AssistantEntry? ==> e.calls == [])
    ensures Paired(Messages(entries + [e]))
  {
    MessagesOfConcat(entries, [e]);
    assert [e][..0] == [] && Messages([e]) == [EntryMessage(e)];
    PairedOne(EntryMessage(e));
    PairedConcat(Messages(entries), [EntryMessage(e)]);
  }

  lemma OnePromptMore(entries: seq<Entry>, more: seq<Entry>)
    requires OnePrompt(entries) && forall i :: 0 <= i < |more| ==> !more[i].UserEntry?
    ensures OnePrompt(entries + more)
  {
  }

  lemma JournalTerminal(entries: seq<Entry>, e: Entry)
    requires Paired(Messages(entries)) && NoTerminals(entries) && Terminal(e) && e.calls == []
    ensures Closed(entries + [e])
  {
    JournalOne(entries, e);
    assert (entries + [e])[..|entries + [e]| - 1] == entries;
  }

  // ---------- asking the model ----------

  method Ask(w: World, ghost base: seq<ChatMessage>, ghost budget: nat, t: Turn, ghost g: Story)
    returns (u: Turn, reply: ModelReply, ghost h: Story)
    requires Sound(base, budget, t, g, 0) && Open(base, t, g)
    ensures Sound(base, budget, u, h, 1) && Open(base, u, h)
    ensures u == t.(active := u.active, requests := u.requests, step := t.step + 1)
    ensures h == g.(folded := h.folded, snapshots := g.snapshots + [g.conversation])
    ensures reply == w.reply(|t.requests|)
    ensures u.requests == t.requests + [Request(u.active, true)]
  {
    hide FoldFirst, Legal, Paired, Messages, Cutoff;
    var active := CompactList(t.active);
    WorkingCompact(t.active, g.conversation, g.folded);
    h := g.(folded := Cutoff(g.conversation), snapshots := g.snapshots + [g.conversation]);
    reply := w.reply(|t.requests|);
    u := t.(active := active, requests := t.requests + [Request(active, true)], step := t.step + 1);
  }

  // ---------- closing and retrying ----------

  function Closing(w: World, t: Turn, e: Entry): Turn
  {
    t.(trail := t.trail + [Last],
       entries := if w.writes(t.clock.writes) then t.entries + [e] else t.entries,
       clock := t.clock.(writes := t.clock.writes + 1))
  }

  /** Journal the terminal entry, if the write succeeds. */
  method CloseTurn(w: World, ghost base: seq<ChatMessage>, ghost budget: nat, t: Turn, e: Entry, ghost g: Story)
    returns (u: Turn, written: bool)
    requires Sound(base, budget, t, g, 1) && Open(base, t, g) && Records(t.trail) < budget
    requires Terminal(e) && e.calls == []
    ensures u == Closing(w, t, e) && Sound(base, budget, u, g, 0)
    ensures written <==> w.writes(t.clock.writes)
    ensures Paired(Messages(u.entries)) && (written ==> Closed(u.entries))
  {
    hide FoldFirst, Legal, Compacted, Paired, Messages, OnePrompt, Working, FaithfulRequests, AllPaired;
    AddStep(base, budget, t, g, Last);
    written := w.writes(t.clock.writes);
    u := t.(trail := t.trail + [Last], clock := t.clock.(writes := t.clock.writes + 1));
    if written {
      JournalTerminal(t.entries, e);
      OnePromptMore(t.entries, [e]);
      u := u.(entries := t.entries + [e]);
    }
  }

  function Retried(t: Turn, said: seq<ChatMessage>, s: Step): Turn
  {
    t.(active := t.active + said, trail := t.trail + [s],
       emptyStreak := if s.EmptyRetry? then t.emptyStreak + 1 else t.emptyStreak,
       reviewAttempts := if s.Rejection? then t.reviewAttempts + 1 else t.reviewAttempts)
  }

  /** Put what the model said and an objection into the context, and go round again. */
  method Retry(ghost base: seq<ChatMessage>, ghost budget: nat, t: Turn, answer: ChatMessage, objection: ChatMessage, s: Step, ghost g: Story)
    returns (u: Turn, ghost h: Story)
    requires Sound(base, budget, t, g, 1) && Open(base, t, g) && MayFollow(t.trail, s, budget)
    requires s.EmptyRetry? || s.Rejection?
    requires answer.role != Tool && objection.role != Tool && CallsOf(answer) == [] && CallsOf(objection) == []
    ensures u == Retried(t, [answer, objection], s) && h == Said(g, [answer, objection])
    ensures Sound(base, budget, u, h, 0) && Open(base, u, h)
  {
    hide FoldFirst, Legal, Compacted, Paired, Messages, OnePrompt, Working, FaithfulRequests, AllPaired, NoTerminals;
    var said := [answer, objection];
    SayMore(base, budget, t, g, 1, said);
    PairedTwo(answer, objection);
    if Paired(base) { PairedConcat(g.conversation, said); }
    h := Said(g, said);
    u := t.(active := t.active + said,
            emptyStreak := if s.EmptyRetry? then t.emptyStreak + 1 else t.emptyStreak,
            reviewAttempts := if s.Rejection? then t.reviewAttempts + 1 else t.reviewAttempts);
    AddStep(base, budget, u, h, s);
    TakeStep(t.trail, s, budget);
    u := u.(trail := t.trail + [s]);
  }

  lemma PairedTwo(a: ChatMessage, b: ChatMessage)
    requires a.role != Tool && b.role != Tool && CallsOf(a) == [] && CallsOf(b) == []
    ensures Paired([a, b])
  {
    PairedOne(a);
    PairedOne(b);
    PairedConcat([a], [b]);
    assert [a] + [b] == [a, b];
  }

  // ---------- the four outcomes of a model call ----------

  method TakeError(w: World, ghost base: seq<ChatMessage>, ghost budget: nat, t: Turn, message: Str, ghost g: Story)
    returns (u: Turn)
    requires Sound(base, budget, t, g, 1) && Open(base, t, g) && Records(t.trail) < budget
    ensures u == Closing(w, t, ClosingEntry(w, ModelError(message))).(events := t.events + [TurnEnd, AgentSettled])
    ensures Sound(base, budget, u, g, 0)
    ensures Paired(Messages(u.entries)) && (w.writes(t.clock.writes) ==> Closed(u.entries))
  {
    hide FoldFirst, Legal, Compacted, Paired, Messages, OnePrompt, Working, FaithfulRequests, AllPaired, NoTerminals;
    var written;
    u, written := CloseTurn(w, base, budget, t, AssistantEntry(message, "", [], Error), g);
    u := u.(events := t.events + [TurnEnd, AgentSettled]);
  }

  /** Two empty completions in a row are retried; a third closes the turn with an error. */
  method TakeEmpty(w: World, ghost base: seq<ChatMessage>, ghost budget: nat, t: Turn, ghost g: Story)
    returns (u: Turn, outcome: Outcome, ghost h: Story)
    requires Sound(base, budget, t, g, 1) && Open(base, t, g) && Records(t.trail) < budget
    ensures Sound(base, budget, u, h, 0)
    ensures outcome == if t.emptyStreak < MAX_EMPTY_RETRIES then Next else if w.writes(t.clock.writes) then Finished else JournalFailed
    ensures u == if outcome == Next
                 then Retried(t, [AssistantMessage(w.prompts.emptyPlaceholder), UserMessage(w.prompts.emptyNudge)], EmptyRetry)
                 else Closing(w, t, AssistantEntry(w.prompts.emptyAbort, "", [], Error))
    ensures h == if outcome == Next
                 then Said(g, [AssistantMessage(w.prompts.emptyPlaceholder), UserMessage(w.prompts.emptyNudge)]) else g
    ensures outcome == Next ==> Open(base, u, h)
    ensures Paired(Messages(u.entries)) && (outcome == Finished ==> Closed(u.entries))
  {
    hide FoldFirst, Legal, Compacted, Paired, Messages, OnePrompt, Working, FaithfulRequests, AllPaired, NoTerminals;
    if t.emptyStreak + 1 <= MAX_EMPTY_RETRIES {
      u, h := Retry(base, budget, t, AssistantMessage(w.prompts.emptyPlaceholder), UserMessage(w.prompts.emptyNudge), EmptyRetry, g);
      outcome := Next;
    } else {
      h := g;
      var written;
      u, written := CloseTurn(w, base, budget, t, AssistantEntry(w.prompts.emptyAbort, "", [], Error), g);
      outcome := if written then Finished else JournalFailed;
    }
  }

  /** Whether a blocking reviewer sends this answer back. */
  predicate SentBack(w: World, t: Turn)
  {
    var r := w.reviewer(t.step);
    r.blocking && r.available && (r.always || t.modifiedCode || t.reviewAttempts > 0)
    && t.reviewAttempts < MAX_REVIEW_RETRIES && w.verdict(t.step).Rejected?
  }

  function AfterRejection(w: World, t: Turn, text: Str, reasoning: Str): Turn
    requires w.verdict(t.step).Rejected?
  {
    Retried(t, [AnswerMessage(text, reasoning), UserMessage(w.verdict(t.step).critique)], Rejection).(
      entries := if w.writes(t.clock.writes) then t.entries + [AssistantEntry(text, reasoning, [], CritiqueRejected)] else t.entries,
      clock := t.clock.(writes := t.clock.writes + 1))
  }

  /** A rejected answer is journaled as such and the critique asked about; any other closes the turn. */
  method TakeAnswer(w: World, ghost base: seq<ChatMessage>, ghost budget: nat, t: Turn, text: Str, reasoning: Str, ghost g: Story)
    returns (u: Turn, outcome: Outcome, ghost h: Story)
    requires Sound(base, budget, t, g, 1) && Open(base, t, g) && Records(t.trail) < budget
    ensures Sound(base, budget, u, h, 0)
    ensures outcome == if SentBack(w, t) then Next else if w.writes(t.clock.writes) then Finished else JournalFailed
    ensures u == if outcome == Next then AfterRejection(w, t, text, reasoning)
                 else Closing(w, t, AssistantEntry(text, reasoning, [], Stop))
    ensures h == if outcome == Next
                 then Said(g, [AnswerMessage(text, reasoning), UserMessage(w.verdict(t.step).critique)]) else g
    ensures outcome == Next ==> Open(base, u, h)
    ensures Paired(Messages(u.entries)) && (outcome == Finished ==> Closed(u.entries))
  {
    hide FoldFirst, Legal, Compacted, Paired, Messages, OnePrompt, Working, FaithfulRequests, AllPaired, MayFollow, Records, Rejections, Streak, Blank;
    var r := w.reviewer(t.step);
    var reviewing := r.available && (r.always || t.modifiedCode || t.reviewAttempts > 0);
    if r.blocking && reviewing && t.reviewAttempts < MAX_REVIEW_RETRIES {
      var verdict := w.verdict(t.step);
      if verdict.Rejected? {
        var e := AssistantEntry(text, reasoning, [], CritiqueRejected);
        MayReject(base, budget, t, g);
        u, h := Retry(base, budget, t, AnswerMessage(text, reasoning), UserMessage(verdict.critique), Rejection, g);
        JournalOne(t.entries, e);
        OnePromptMore(t.entries, [e]);
        u := u.(entries := if w.writes(t.clock.writes) then t.entries + [e] else t.entries,
                clock := t.clock.(writes := t.clock.writes + 1));
        outcome := Next;
        return;
      }
    }
    h := g;
    var written;
    u, written := CloseTurn(w, base, budget, t, AssistantEntry(text, reasoning, [], Stop), g);
    outcome := if written then Finished else JournalFailed;
  }

  lemma MayReject(base: seq<ChatMessage>, budget: nat, t: Turn, g: Story)
    requires Open(base, t, g) && Records(t.trail) < budget && t.reviewAttempts < MAX_REVIEW_RETRIES
    ensures MayFollow(t.trail, Rejection, budget)
  {
    hide Paired, Messages;
  }

  // ---------- a batch of tool calls ----------

  /** A batch is in order in the journal exactly when every call has its result. */
  lemma {:induction false} JournalBatch(w: World, entries: seq<Entry>, e: Entry, results: seq<Entry>, from: nat)
    requires Paired(Messages(entries)) && e.AssistantEntry? && |results| <= |e.calls| && e.calls != []
    requires forall j :: 0 <= j < |results| ==> results[j] == ResultEntry(w, from, e.calls[j], j)
    ensures Paired(Messages(entries + [e] + results)) <==> |results| == |e.calls|
    ensures InOrder(entries + [e] + results)
  {
    hide Paired, Messages;
    var ids, tail := Ids(e.calls), Messages(results);
    PairedIffNothingAwaited(Messages(entries));
    MessagesOfConcat(entries + [e], results);
    MessagesOfConcat(entries, [e]);
    MessagesAt([e], 0);
    assert Messages([e]) == [EntryMessage(e)];
    AwaitedOneMore(Messages(entries), EntryMessage(e));
    forall j | 0 <= j < |tail| ensures tail[j] == EntryMessage(results[j]) { MessagesAt(results, j); }
    AwaitedOthers(ids, tail);
    AwaitedConcat(Some([]), Messages(entries + [e]), tail);
    assert Awaited(Messages(entries + [e] + results)) == Some(ids[|tail|..]);
    assert |ids[|tail|..]| == |e.calls| - |results|;
    PairedIffNothingAwaited(Messages(entries + [e] + results));
  }

  lemma NoTerminalsAfterBatch(w: World, entries: seq<Entry>, e: Entry, results: seq<Entry>, from: nat)
    requires NoTerminals(entries) && !Terminal(e) && e.AssistantEntry? && |results| <= |e.calls|
    requires forall j :: 0 <= j < |results| ==> results[j] == ResultEntry(w, from, e.calls[j], j)
    ensures NoTerminals(entries + [e] + results)
  {
  }

  lemma BatchIsNoPrompt(w: World, entries: seq<Entry>, e: Entry, results: seq<Entry>, from: nat)
    requires OnePrompt(entries) && e.AssistantEntry? && |results| <= |e.calls|
    requires forall j :: 0 <= j < |results| ==> results[j] == ResultEntry(w, from, e.calls[j], j)
    ensures OnePrompt(entries + [e] + results)
  {
    OnePromptMore(entries, [e]);
    OnePromptMore(entries + [e], results);
  }

  /** The context after a batch: the call message, its results, then the notices. */
  lemma SayBatch(w: World, conversation: seq<ChatMessage>, text: Str, reasoning: Str, calls: seq<ToolCall>,
                                    results: seq<ChatMessage>, from: nat)
    requires Paired(conversation) && |results| == |calls|
    requires forall j :: 0 <= j < |results| ==> results[j] == ResultOf(w, from, calls[j], j)
    ensures Paired(conversation + ([CallMessage(text, reasoning, calls)] + results + NoticesOf(w, from, |results|)))
  {
    var m := CallMessage(text, reasoning, calls);
    var notices := NoticesOf(w, from, |results|);
    NoticesArePaired(w, from, |results|);
    PairedBatch(m, results, notices);
    PairedConcat(conversation, [m] + results + notices);
  }

  /** The turn after a batch that ran to its end. */
  function AfterBatch(w: World, t: Turn, text: Str, reasoning: Str, calls: seq<ToolCall>): Turn
  {
    var n := |calls|;
    t.(active := t.active + BatchMessages(w, t.clock.tools, text, reasoning, calls),
       entries := t.entries + [AssistantEntry(text, reasoning, calls, ToolUse)] + EntriesOf(w, t.clock.tools, calls, n),
       clock := Clock(t.clock.checks + n, t.clock.writes + 1 + n, t.clock.tools + n),
       emptyStreak := 0,
       modifiedCode := t.modifiedCode || AnyModifies(calls, n),
       trail := t.trail + [Batch(n)])
  }

  method TakeBatch(w: World, ghost base: seq<ChatMessage>, ghost budget: nat, t: Turn,
                   text: Str, reasoning: Str, calls: seq<ToolCall>, ghost g: Story)
    returns (u: Turn, outcome: Outcome, midBatch: bool, ghost answered: nat, ghost h: Story)
    requires Sound(base, budget, t, g, 1) && Open(base, t, g) && Records(t.trail) < budget && calls != []
    ensures Sound(base, budget, u, h, 0)
    // the state it leaves
    ensures outcome == Next ==> u == AfterBatch(w, t, text, reasoning, calls) && Open(base, u, h)
    ensures outcome == Next ==> h == Said(g, BatchMessages(w, t.clock.tools, text, reasoning, calls))
    ensures h.snapshots == g.snapshots && h.opening == g.opening
    ensures outcome != Next ==>
      u == t.(trail := t.trail + [Last], entries := u.entries, active := u.active, clock := u.clock,
              emptyStreak := 0, modifiedCode := u.modifiedCode)
    ensures answered <= |calls|
    ensures u.entries == if w.writes(t.clock.writes)
      then t.entries + [AssistantEntry(text, reasoning, calls, ToolUse)] + EntriesOf(w, t.clock.tools, calls, answered)
      else t.entries
    ensures (Paired(Messages(u.entries)) <==> !midBatch) && InOrder(u.entries)
    // how far it got, and why
    ensures midBatch <==> w.writes(t.clock.writes) && answered < |calls|
    ensures outcome == Next <==> w.writes(t.clock.writes) && answered == |calls|
    ensures outcome == Next || outcome == Interrupted || outcome == JournalFailed
    ensures AllUndisturbed(w, t.clock.(writes := t.clock.writes + 1), answered)
    ensures outcome == Interrupted ==> midBatch && w.cancelled(t.clock.checks + answered)
    ensures outcome == Interrupted ==> u.clock.checks == t.clock.checks + answered + 1
    ensures outcome == JournalFailed ==> !w.writes(t.clock.writes + (if midBatch then 1 + answered else 0))
    ensures outcome == JournalFailed && midBatch ==> !w.cancelled(t.clock.checks + answered)
  {
    hide OnePrompt, FoldFirst, Legal, Compacted, Paired, Messages, NoticesOf, Working, FaithfulRequests, AllPaired, NoTerminals;
    hide Records, Streak, Rejections, CallMessage, ResultOf, ResultEntry, AnyModifies, InOrder;
    hide RunOn, ResultsRead, EntriesRead, NoticesRead;
    PairedInOrder(t.entries);
    u := t.(clock := t.clock.(writes := t.clock.writes + 1), emptyStreak := 0);
    h, answered := g, 0;
    if !w.writes(t.clock.writes) {
      AddStep(base, budget, t, g, Last);
      u := u.(trail := t.trail + [Last]);
      outcome, midBatch := JournalFailed, false;
      return;
    }
    var e := AssistantEntry(text, reasoning, calls, ToolUse);
    var m := CallMessage(text, reasoning, calls);
    var results, resultEntries, notices, end, after := ExecuteBatch(w, calls, u.clock);
    answered := |results|;
    var said := [m] + results + notices;
    SayMore(base, budget, t, g, 1, said);
    h := Said(g, said);
    JournalBatch(w, t.entries, e, resultEntries, t.clock.tools);
    BatchIsNoPrompt(w, t.entries, e, resultEntries, t.clock.tools);
    u := u.(active := t.active + said, entries := t.entries + [e] + resultEntries, clock := after,
            modifiedCode := t.modifiedCode || AnyModifies(calls, |results|));
    midBatch := end != Complete;
    if end == Complete {
      if Paired(base) { SayBatch(w, g.conversation, text, reasoning, calls, results, t.clock.tools); }
      NoTerminalsAfterBatch(w, t.entries, e, resultEntries, t.clock.tools);
      TakeStep(t.trail, Batch(|calls|), budget);
      AddStep(base, budget, t.(active := t.active + said), h, Batch(|calls|));
      u := u.(trail := t.trail + [Batch(|calls|)]);
      outcome := Next;
    } else {
      AddStep(base, budget, t.(active := t.active + said), h, Last);
      u := u.(trail := t.trail + [Last]);
      outcome := if end == Cut then Interrupted else JournalFailed;
    }
  }

  // ---------- one step ----------

  ghost predicate ClosedBy(entries: seq<Entry>, e: Entry)
  {
    Closed(entries) && entries[|entries| - 1] == e
  }

  /** The loop's variables are what the steps so far make them. */
  ghost predicate Clocked(w: World, t: Turn)
  {
    t.clock == ClockAt(t.trail) && t.modifiedCode == Modified(w, t.trail)
  }

  /** The same once the round has looked at the token and asked the model. */
  ghost predicate Asked(w: World, t: Turn)
  {
    t.clock == ClockAt(t.trail).(checks := ClockAt(t.trail).checks + 1)
    && t.modifiedCode == Modified(w, t.trail) && t.step == |t.trail| + 1
  }

  lemma ModifiedAfter(w: World, t: seq<Step>, s: Step)
    ensures Modified(w, t + [s]) <==>
      (Modified(w, t) || (s.Batch? && w.reply(|t|).Completion?
                          && AnyModifies(w.reply(|t|).toolCalls, |w.reply(|t|).toolCalls|)))
  {
    hide AnyModifies;
    assert (t + [s])[..|t + [s]| - 1] == t;
  }

  /** Where a batch stopped, and why, is decided by the first call that was disturbed. */
  lemma BatchDecides(w: World, clock: Clock, n: nat, answered: nat)
    requires answered <= n && AllUndisturbed(w, clock, answered)
    requires answered < n ==> !Undisturbed(w, clock, answered)
    ensures AllUndisturbed(w, clock, n) <==> answered == n
    ensures FailsToWrite(w, clock, n) <==> answered < n && !w.cancelled(clock.checks + answered)
  {
    if answered < n && !w.cancelled(clock.checks + answered) {
      assert FailsAt(w, clock, answered);
    }
    if FailsToWrite(w, clock, n) {
      var k: nat :| k < n && FailsAt(w, clock, k);
      assert !Undisturbed(w, clock, k);
      if answered < n { SameStop(w, clock, answered, k); }
    }
  }

  lemma SameStop(w: World, clock: Clock, a: nat, b: nat)
    requires AllUndisturbed(w, clock, a) && !Undisturbed(w, clock, a)
    requires AllUndisturbed(w, clock, b) && !Undisturbed(w, clock, b)
    ensures a == b
  {
    hide Undisturbed;
  }

  /** Retries keep the clock in step with the trail. */
  lemma RetryClocked(w: World, t: Turn, u: Turn, s: Step)
    requires Asked(w, t) && u.trail == t.trail + [s] && u.modifiedCode == t.modifiedCode
    requires s.EmptyRetry? || s.Rejection?
    requires u.clock == t.clock.(writes := t.clock.writes + if s.Rejection? then 1 else 0)
    ensures Clocked(w, u)
  {
    hide AnyModifies, Modified;
    ClockAfter(t.trail, s);
    ModifiedAfter(w, t.trail, s);
  }

  lemma BatchClocked(w: World, t: Turn, text: Str, reasoning: Str, calls: seq<ToolCall>)
    requires Asked(w, t) && w.reply(|t.trail|) == Completion(text, reasoning, calls)
    ensures Clocked(w, AfterBatch(w, t, text, reasoning, calls))
  {
    hide AnyModifies, Modified, BatchMessages, EntriesOf;
    ClockAfter(t.trail, Batch(|calls|));
    ModifiedAfter(w, t.trail, Batch(|calls|));
  }

  lemma ReviewAgrees(w: World, t: Turn)
    requires Asked(w, t) && t.reviewAttempts == Rejections(t.trail)
    ensures SentBack(w, t) <==> ReviewRejects(w, t.trail)
  {
    hide Modified, Rejections;
  }

  lemma OpenCounts(base: seq<ChatMessage>, t: Turn, g: Story)
    requires Open(base, t, g)
    ensures t.reviewAttempts == Rejections(t.trail) && t.emptyStreak == Streak(t.trail)
    ensures Records(t.trail) == t.clock.tools && !Ended(t.trail) && Paired(Messages(t.entries))
  {
    hide Paired, Messages, Records, Rejections, Streak;
  }

  /** Act on one reply of the model: the step taken is the one the world determines, and so are the
      ways of failing. */
  method Respond(w: World, ghost base: seq<ChatMessage>, ghost budget: nat, t: Turn, reply: ModelReply, ghost g: Story)
    returns (u: Turn, outcome: Outcome, midBatch: bool, ghost h: Story)
    requires Sound(base, budget, t, g, 1) && Open(base, t, g) && Records(t.trail) < budget
    requires Asked(w, t) && reply == w.reply(|t.trail|)
    ensures Sound(base, budget, u, h, 0)
    ensures u.requests == t.requests && u.step == t.step && t.entries <= u.entries
    ensures u.trail == t.trail + [StepTaken(w, t.trail)]
    ensures h.snapshots == g.snapshots && h.opening == g.opening
    ensures outcome == Next ==> h.conversation == g.conversation + StepMessages(w, t.trail, StepTaken(w, t.trail))
    ensures u.entries == t.entries + StepEntries(w, t.trail, StepTaken(w, t.trail))
    ensures u.events == t.events + (if reply.ModelError? then [TurnEnd, AgentSettled] else [])
    ensures outcome == Next <==> !StepTaken(w, t.trail).Last?
    ensures outcome == Next ==> Open(base, u, h) && Clocked(w, u)
    ensures outcome == ModelFailed <==> reply.ModelError?
    ensures outcome == JournalFailed <==> JournalBreaks(w, t.trail)
    ensures outcome == Interrupted ==> midBatch && CancelSeen(w, u)
    ensures midBatch <==> CutsBatch(w, t.trail)
    ensures midBatch ==> outcome == Interrupted || outcome == JournalFailed
    ensures outcome == Finished ==> ClosedBy(u.entries, ClosingEntry(w, reply))
    ensures outcome == ModelFailed ==> w.writes(t.clock.writes) ==> ClosedBy(u.entries, ClosingEntry(w, reply))
    ensures (Paired(Messages(u.entries)) <==> !midBatch) && InOrder(u.entries)
  {
    hide InOrder;
    midBatch := false;
    match reply {
      case ModelError(message) =>
        u, h := RespondToError(w, base, budget, t, message, g);
        outcome := ModelFailed;
      case Completion(text, reasoning, calls) =>
        if calls != [] {
          u, outcome, midBatch, h := RespondToCalls(w, base, budget, t, text, reasoning, calls, g);
        } else if Blank(text) {
          u, outcome, h := RespondToNothing(w, base, budget, t, text, reasoning, g);
        } else {
          u, outcome, h := RespondToAnswer(w, base, budget, t, text, reasoning, g);
        }
    }
    if !midBatch { PairedInOrder(u.entries); }
  }

  method RespondToError(w: World, ghost base: seq<ChatMessage>, ghost budget: nat, t: Turn, message: Str, ghost g: Story)
    returns (u: Turn, ghost h: Story)
    requires Sound(base, budget, t, g, 1) && Open(base, t, g) && Records(t.trail) < budget
    requires Asked(w, t) && w.reply(|t.trail|) == ModelError(message)
    ensures Sound(base, budget, u, h, 0)
    ensures u.requests == t.requests && u.step == t.step && t.entries <= u.entries
    ensures u.trail == t.trail + [StepTaken(w, t.trail)] && StepTaken(w, t.trail) == Last
    ensures h == g && u.entries == t.entries + StepEntries(w, t.trail, StepTaken(w, t.trail))
    ensures u.events == t.events + [TurnEnd, AgentSettled]
    ensures w.writes(t.clock.writes) ==> ClosedBy(u.entries, ClosingEntry(w, ModelError(message)))
    ensures Paired(Messages(u.entries))
  {
    hide FoldFirst, Legal, Compacted, Paired, Messages, Working, FaithfulRequests, AllPaired, NoTerminals, Closed;
    hide Records, Streak, Rejections, OnePrompt, Sound, Open, Modified;
    u := TakeError(w, base, budget, t, message, g);
    h := g;
  }

  method RespondToCalls(w: World, ghost base: seq<ChatMessage>, ghost budget: nat, t: Turn,
                        text: Str, reasoning: Str, calls: seq<ToolCall>, ghost g: Story)
    returns (u: Turn, outcome: Outcome, midBatch: bool, ghost h: Story)
    requires Sound(base, budget, t, g, 1) && Open(base, t, g) && Records(t.trail) < budget && calls != []
    requires Asked(w, t) && w.reply(|t.trail|) == Completion(text, reasoning, calls)
    ensures Sound(base, budget, u, h, 0)
    ensures u.requests == t.requests && u.step == t.step && t.entries <= u.entries && u.events == t.events
    ensures u.trail == t.trail + [StepTaken(w, t.trail)]
    ensures h.snapshots == g.snapshots && h.opening == g.opening
    ensures outcome == Next ==> h.conversation == g.conversation + StepMessages(w, t.trail, StepTaken(w, t.trail))
    ensures u.entries == t.entries + StepEntries(w, t.trail, StepTaken(w, t.trail))
    ensures outcome == Next <==> !StepTaken(w, t.trail).Last?
    ensures outcome == Next ==> Open(base, u, h) && Clocked(w, u)
    ensures outcome == Next || outcome == Interrupted || outcome == JournalFailed
    ensures outcome == JournalFailed <==> JournalBreaks(w, t.trail)
    ensures outcome == Interrupted ==> midBatch && CancelSeen(w, u)
    ensures midBatch <==> CutsBatch(w, t.trail)
    ensures midBatch ==> outcome != Next
    ensures (Paired(Messages(u.entries)) <==> !midBatch) && InOrder(u.entries)
  {
    hide FoldFirst, Legal, Compacted, Paired, Messages, Working, FaithfulRequests, AllPaired, NoTerminals, Closed;
    hide Records, Streak, Rejections, OnePrompt, Sound, Open, Modified, BatchMessages, AllUndisturbed, FailsToWrite, EntriesOf, InOrder;
    hide StepEntries;
    ghost var n;
    u, outcome, midBatch, n, h := TakeBatch(w, base, budget, t, text, reasoning, calls, g);
    if w.writes(t.clock.writes) { BatchDecides(w, BatchClock(t.trail), |calls|, n); }
    BatchStepEntries(w, t.trail, StepTaken(w, t.trail), n);
    if outcome == Next { BatchClocked(w, t, text, reasoning, calls); }
  }

  method RespondToNothing(w: World, ghost base: seq<ChatMessage>, ghost budget: nat, t: Turn, text: Str, reasoning: Str, ghost g: Story)
    returns (u: Turn, outcome: Outcome, ghost h: Story)
    requires Sound(base, budget, t, g, 1) && Open(base, t, g) && Records(t.trail) < budget
    requires Asked(w, t) && Blank(text) && w.reply(|t.trail|) == Completion(text, reasoning, [])
    ensures Sound(base, budget, u, h, 0)
    ensures u.requests == t.requests && u.step == t.step && t.entries <= u.entries && u.events == t.events
    ensures u.trail == t.trail + [StepTaken(w, t.trail)]
    ensures h.snapshots == g.snapshots && h.opening == g.opening
    ensures outcome == Next ==> h.conversation == g.conversation + StepMessages(w, t.trail, StepTaken(w, t.trail))
    ensures u.entries == t.entries + StepEntries(w, t.trail, StepTaken(w, t.trail))
    ensures outcome == Next <==> !StepTaken(w, t.trail).Last?
    ensures outcome == Next ==> Open(base, u, h) && Clocked(w, u)
    ensures outcome == Next || outcome == Finished || outcome == JournalFailed
    ensures outcome == JournalFailed <==> JournalBreaks(w, t.trail)
    ensures outcome == Finished ==> ClosedBy(u.entries, ClosingEntry(w, w.reply(|t.trail|)))
    ensures Paired(Messages(u.entries))
  {
    hide FoldFirst, Legal, Compacted, Paired, Messages, Working, FaithfulRequests, AllPaired, NoTerminals, Closed;
    hide Records, Streak, Rejections, OnePrompt, Sound, Open, Modified, Blank;
    OpenCounts(base, t, g);
    u, outcome, h := TakeEmpty(w, base, budget, t, g);
    if outcome == Next {
      RetryClocked(w, t, u, EmptyRetry);
      OpenCounts(base, u, h);
    }
  }

  method RespondToAnswer(w: World, ghost base: seq<ChatMessage>, ghost budget: nat, t: Turn, text: Str, reasoning: Str, ghost g: Story)
    returns (u: Turn, outcome: Outcome, ghost h: Story)
    requires Sound(base, budget, t, g, 1) && Open(base, t, g) && Records(t.trail) < budget
    requires Asked(w, t) && !Blank(text) && w.reply(|t.trail|) == Completion(text, reasoning, [])
    ensures Sound(base, budget, u, h, 0)
    ensures u.requests == t.requests && u.step == t.step && t.entries <= u.entries && u.events == t.events
    ensures u.trail == t.trail + [StepTaken(w, t.trail)]
    ensures h.snapshots == g.snapshots && h.opening == g.opening
    ensures outcome == Next ==> h.conversation == g.conversation + StepMessages(w, t.trail, StepTaken(w, t.trail))
    ensures u.entries == t.entries + StepEntries(w, t.trail, StepTaken(w, t.trail))
    ensures outcome == Next <==> !StepTaken(w, t.trail).Last?
    ensures outcome == Next ==> Open(base, u, h) && Clocked(w, u)
    ensures outcome == Next || outcome == Finished || outcome == JournalFailed
    ensures outcome == JournalFailed <==> JournalBreaks(w, t.trail)
    ensures outcome == Finished ==> ClosedBy(u.entries, ClosingEntry(w, w.reply(|t.trail|)))
    ensures Paired(Messages(u.entries))
  {
    hide FoldFirst, Legal, Compacted, Paired, Messages, Working, FaithfulRequests, AllPaired, NoTerminals, Closed;
    hide Records, Streak, Rejections, OnePrompt, Sound, Open, Modified, Blank, ReviewRejects, AnswerMessage;
    OpenCounts(base, t, g);
    ReviewAgrees(w, t);
    u, outcome, h := TakeAnswer(w, base, budget, t, text, reasoning, g);
    if outcome == Next { RetryClocked(w, t, u, Rejection); }
  }

  // ---------- the loop ----------

  /** How the loop ended. */
  datatype LoopEnd = Settled | OutOfSteps | OutOfBudget | Stopped | Broken(modelError: bool)

  ghost predicate AllWithTools(requests: seq<Request>)
  {
    forall k :: 0 <= k < |requests| ==> requests[k].tools
  }

  /** Every journal write succeeds. */
  ghost predicate Writable(w: World) { forall n :: w.writes(n) }

  /** The last look at the cancellation token found it cancelled. */
  predicate CancelSeen(w: World, t: Turn)
  {
    t.clock.checks > 0 && w.cancelled(t.clock.checks - 1)
  }

  function Front(trail: seq<Step>): seq<Step>
    requires trail != []
  {
    trail[..|trail| - 1]
  }

  /** The last step of a course stopped in the middle of a batch. */
  ghost predicate WasCut(w: World, trail: seq<Step>)
  {
    trail != [] && Ended(trail) && CutsBatch(w, Front(trail))
  }

  ghost predicate ModelFails(w: World, trail: seq<Step>)
  {
    trail != [] && Ended(trail) && w.reply(|trail| - 1).ModelError?
  }

  ghost predicate JournalFails(w: World, trail: seq<Step>)
  {
    trail != [] && Ended(trail) && JournalBreaks(w, Front(trail))
  }

  /** The conversation and the journal are those that the world determines, up to what a last step
      left of the conversation. */
  ghost predicate Scripted(w: World, base: seq<ChatMessage>, t: Turn, g: Story)
  {
    |g.snapshots| <= |t.trail|
    && (!Ended(t.trail) ==> g.conversation == Conversation(w, base, t.trail))
    && (forall k :: 0 <= k < |g.snapshots| ==> g.snapshots[k] == Conversation(w, base, t.trail[..k]))
    && t.entries == g.opening + Journaled(w, t.trail)
  }

  /** One step further. */
  lemma ScriptGrows(w: World, base: seq<ChatMessage>, t: Turn, g: Story, u: Turn, h: Story, s: Step)
    requires Scripted(w, base, t, g) && !Ended(t.trail) && |g.snapshots| == |t.trail|
    requires u.trail == t.trail + [s] && h.snapshots == g.snapshots + [g.conversation] && h.opening == g.opening
    requires !s.Last? ==> h.conversation == g.conversation + StepMessages(w, t.trail, s)
    requires u.entries == t.entries + StepEntries(w, t.trail, s)
    ensures Scripted(w, base, u, h)
  {
    hide Conversation, StepMessages, StepEntries, Journaled;
    ConversationNext(w, base, t.trail, s);
    JournaledNext(w, t.trail, s);
    forall k | 0 <= k < |h.snapshots| ensures h.snapshots[k] == Conversation(w, base, u.trail[..k]) {
      assert u.trail[..k] == t.trail[..k];
      if k == |t.trail| { assert t.trail[..k] == t.trail; }
    }
  }

  /** What holds of the loop at any time: one request with tools per step, the steps those of the
      course, and a journal in order unless the last step was a batch that was cut. */
  ghost predicate Sane(w: World, base: seq<ChatMessage>, budget: nat, maxSteps: nat, t: Turn, g: Story)
  {
    Sound(base, budget, t, g, 0) && |t.requests| == |t.trail| == t.step
    && OnCourse(w, maxSteps, budget, t.trail) && AllWithTools(t.requests)
    && (Paired(Messages(t.entries)) <==> !WasCut(w, t.trail)) && InOrder(t.entries)
    && Scripted(w, base, t, g) && |g.snapshots| == |t.trail|
  }

  /** At the top of a round: all is well, or a cancellation has just cut a batch. */
  ghost predicate Rolling(w: World, base: seq<ChatMessage>, budget: nat, maxSteps: nat, t: Turn, midBatch: bool, g: Story)
  {
    Sane(w, base, budget, maxSteps, t, g) && t.events == []
    && if midBatch then
         WasCut(w, t.trail) && CancelSeen(w, t) && !ModelFails(w, t.trail) && !JournalFails(w, t.trail)
       else
         Open(base, t, g) && Clocked(w, t)
  }

  ghost predicate Halted(w: World, base: seq<ChatMessage>, budget: nat, maxSteps: nat, t: Turn, end: LoopEnd, midBatch: bool, g: Story)
  {
    Sane(w, base, budget, maxSteps, t, g)
    && t.trail == TrailOf(w, maxSteps, budget)
    && (midBatch <==> WasCut(w, t.trail))
    && (end == Broken(true) <==> ModelFails(w, t.trail))
    && (end == Broken(false) <==> JournalFails(w, t.trail))
    && t.events == (if end == Broken(true) then [TurnEnd, AgentSettled] else [])
    && match end
       case Settled => !midBatch && Ended(t.trail) && ClosedBy(t.entries, ClosingEntry(w, w.reply(|t.trail| - 1)))
       case OutOfSteps => t.step >= maxSteps && if midBatch then CancelSeen(w, t) else Open(base, t, g) && Clocked(w, t)
       case OutOfBudget =>
         !midBatch && Records(t.trail) >= budget && Open(base, t, g) && t.step < maxSteps
         && t.clock == ClockAt(t.trail).(checks := ClockAt(t.trail).checks + 1) && !w.cancelled(ClockAt(t.trail).checks)
       case Stopped => CancelSeen(w, t) && (!midBatch ==> w.cancelled(ClockAt(t.trail).checks))
       case Broken(modelError) =>
         modelError ==> !midBatch && (!Writable(w) || ClosedBy(t.entries, ClosingEntry(w, w.reply(|t.trail| - 1))))
  }

  predicate Extends(entries: seq<Entry>, earlier: seq<Entry>) { earlier <= entries }

  lemma ExtendsFurther(c: seq<Entry>, b: seq<Entry>, a: seq<Entry>)
    requires Extends(c, b) && Extends(b, a)
    ensures Extends(c, a)
  {
  }

  /** One round of the loop past its guards: a request with tools, and what its reply leads to. */
  method TakeOneStep(w: World, ghost base: seq<ChatMessage>, ghost budget: nat, ghost maxSteps: nat, t: Turn, ghost g: Story)
    returns (u: Turn, outcome: Outcome, midBatch: bool, ghost h: Story)
    requires Looked(w, base, budget, maxSteps, t, g)
    ensures u.step == t.step + 1 && Extends(u.entries, t.entries) && h.opening == g.opening
    ensures outcome == Next || outcome == Interrupted ==> Rolling(w, base, budget, maxSteps, u, midBatch, h)
    ensures outcome == Finished ==> Halted(w, base, budget, maxSteps, u, Settled, midBatch, h)
    ensures outcome == ModelFailed || outcome == JournalFailed ==>
      Halted(w, base, budget, maxSteps, u, Broken(outcome == ModelFailed), midBatch, h)
  {
    hide FoldFirst, Legal, Compacted, Paired, Messages, Working, FaithfulRequests, AllPaired, Records, Streak, Rejections, OnePrompt;
    hide NoTerminals, Closed, ClosedBy, ClosingEntry, Sound, Open, StepTaken, OnCourse, Stops, CutsBatch, JournalBreaks, Modified, InOrder;
    hide Scripted, StepMessages, StepEntries, AllWithTools, Ended, Sane;
    BeforeStep(w, base, budget, maxSteps, t, g);
    var reply;
    u, reply, h := Ask(w, base, budget, t, g);
    u, outcome, midBatch, h := Respond(w, base, budget, u, reply, h);
    StaysSane(w, base, budget, maxSteps, t, g, u, midBatch, h);
  }

  /** Where a round starts, and what its step will be to the course. */
  lemma BeforeStep(w: World, base: seq<ChatMessage>, budget: nat, maxSteps: nat, t: Turn, g: Story)
    requires Looked(w, base, budget, maxSteps, t, g)
    ensures Sound(base, budget, t, g, 0) && |t.requests| == |t.trail| == t.step == |g.snapshots| && !Ended(t.trail)
    ensures var s := StepTaken(w, t.trail);
      Front(t.trail + [s]) == t.trail && (Ended(t.trail + [s]) <==> s.Last?)
      && (s.Last? ==> t.trail + [s] == TrailOf(w, maxSteps, budget))
  {
    hide Ended, Sound, Open, OnCourse, Stops, StepTaken, Scripted, InOrder, Paired, Messages, Records, Modified;
    NotEnded(base, t, g);
    StepMade(w, maxSteps, budget, t.trail);
  }

  /** The loop stays sane when its step is the one that the world determines. */
  lemma StaysSane(w: World, base: seq<ChatMessage>, budget: nat, maxSteps: nat, t: Turn, g: Story, u: Turn, midBatch: bool, h: Story)
    requires Looked(w, base, budget, maxSteps, t, g) && Sound(base, budget, u, h, 0)
    requires var s := StepTaken(w, t.trail);
      u.trail == t.trail + [s] && u.entries == t.entries + StepEntries(w, t.trail, s)
      && (!s.Last? ==> h.conversation == g.conversation + StepMessages(w, t.trail, s))
    requires |u.requests| == |t.requests| + 1 && u.requests[..|t.requests|] == t.requests && u.requests[|t.requests|].tools
    requires h.snapshots == g.snapshots + [g.conversation] && h.opening == g.opening
    requires midBatch <==> CutsBatch(w, t.trail)
    requires (Paired(Messages(u.entries)) <==> !midBatch) && InOrder(u.entries)
    ensures Sane(w, base, budget, maxSteps, u, h)
  {
    hide Legal, Compacted, Paired, Messages, Working, FaithfulRequests, AllPaired, Records, Streak, Rejections, OnePrompt;
    hide Sound, Open, OnCourse, Stops, JournalBreaks, Modified, InOrder, Scripted, StepMessages, StepEntries;
    NotEnded(base, t, g);
    Counts(base, budget, u, h);
    StepMade(w, maxSteps, budget, t.trail);
    ScriptGrows(w, base, t, g, u, h, StepTaken(w, t.trail));
  }

  lemma NotEnded(base: seq<ChatMessage>, t: Turn, g: Story)
    requires Open(base, t, g)
    ensures !Ended(t.trail)
  {
    hide Paired, Messages, Records, Rejections, Streak, NoTerminals;
  }

  /** The counters of a sound turn. */
  lemma Counts(base: seq<ChatMessage>, budget: nat, t: Turn, g: Story)
    requires Sound(base, budget, t, g, 0)
    ensures |t.requests| == |t.trail| == t.step
  {
    hide FoldFirst, Legal, Compacted, Paired, Messages, Working, FaithfulRequests, AllPaired, OnePrompt;
  }

  /** Past the guards: the course goes on, and the clock has counted the look at the token. */
  ghost predicate Looked(w: World, base: seq<ChatMessage>, budget: nat, maxSteps: nat, t: Turn, g: Story)
  {
    Sane(w, base, budget, maxSteps, t, g) && t.events == [] && Open(base, t, g) && Records(t.trail) < budget
    && !Stops(w, maxSteps, budget, t.trail) && t.modifiedCode == Modified(w, t.trail)
    && t.clock == ClockAt(t.trail).(checks := ClockAt(t.trail).checks + 1)
  }

  /** A step taken stays on the course; the step that ends the loop completes it. */
  lemma StepMade(w: World, maxSteps: nat, budget: nat, t: seq<Step>)
    requires OnCourse(w, maxSteps, budget, t) && !Stops(w, maxSteps, budget, t)
    ensures var s := StepTaken(w, t);
      OnCourse(w, maxSteps, budget, t + [s]) && Front(t + [s]) == t && (Ended(t + [s]) <==> s.Last?)
      && (s.Last? ==> t + [s] == TrailOf(w, maxSteps, budget))
  {
    hide StepTaken, OnCourse, CourseFrom, Records;
    var s := StepTaken(w, t);
    StaysOnCourse(w, maxSteps, budget, t);
    assert Front(t + [s]) == t;
    if s.Last? { CourseEnds(w, maxSteps, budget, t + [s]); }
  }

  lemma SameScript(w: World, base: seq<ChatMessage>, t: Turn, u: Turn, g: Story)
    requires u == t.(clock := u.clock) && Scripted(w, base, t, g)
    ensures Scripted(w, base, u, g)
  {
    hide Conversation, Journaled;
  }

  /** The guards at the top of a round: a cancelled token stops the loop, a cut batch was cut by
      one, and the budget is spent exactly when the recorded calls reach it. */
  lemma Look(w: World, base: seq<ChatMessage>, budget: nat, maxSteps: nat, t: Turn, midBatch: bool, g: Story)
    requires Sticky(w) && Rolling(w, base, budget, maxSteps, t, midBatch, g) && t.step < maxSteps
    ensures var u := t.(clock := t.clock.(checks := t.clock.checks + 1));
      if CancelSeen(w, u) then Halted(w, base, budget, maxSteps, u, Stopped, midBatch, g)
      else
        !midBatch
        && if u.clock.tools >= budget then Halted(w, base, budget, maxSteps, u, OutOfBudget, midBatch, g)
           else Looked(w, base, budget, maxSteps, u, g)
  {
    hide FoldFirst, Legal, Compacted, Paired, Messages, Working, FaithfulRequests, AllPaired, Records, Streak, Rejections, OnePrompt;
    hide NoTerminals, AllWithTools, CourseFrom, CutsBatch, JournalBreaks, Modified, ClosedBy, ClosingEntry, OnCourse, InOrder;
    hide Scripted;
    SameScript(w, base, t, t.(clock := t.clock.(checks := t.clock.checks + 1)), g);
    if midBatch { assert w.cancelled(t.clock.checks); }
    if Stops(w, maxSteps, budget, t.trail) { CourseEnds(w, maxSteps, budget, t.trail); }
  }

  method TakeSteps(w: World, ghost base: seq<ChatMessage>, budget: nat, maxSteps: nat, start: Turn, ghost from: Story)
    returns (t: Turn, end: LoopEnd, midBatch: bool, ghost g: Story)
    requires Sticky(w) && Rolling(w, base, budget, maxSteps, start, false, from) && start.step == 0
    ensures Halted(w, base, budget, maxSteps, t, end, midBatch, g)
    ensures t.step <= maxSteps && Extends(t.entries, start.entries) && g.opening == from.opening
  {
    hide Sane, Rolling, Halted, Looked, Records, Extends;
    hide Sticky;
    t, g, midBatch := start, from, false;
    ExtendsItself(start.entries);
    while t.step < maxSteps
      invariant Rolling(w, base, budget, maxSteps, t, midBatch, g)
      invariant t.step <= maxSteps && Extends(t.entries, start.entries) && g.opening == from.opening
      decreases maxSteps - t.step
    {
      Look(w, base, budget, maxSteps, t, midBatch, g);
      t := t.(clock := t.clock.(checks := t.clock.checks + 1));
      if w.cancelled(t.clock.checks - 1) {
        end := Stopped;
        return;
      }
      if t.clock.tools >= budget {
        end := OutOfBudget;
        return;
      }
      var outcome;
      ghost var before := t.entries;
      t, outcome, midBatch, g := TakeOneStep(w, base, budget, maxSteps, t, g);
      ExtendsFurther(t.entries, before, start.entries);
      if outcome == ModelFailed || outcome == JournalFailed {
        end := Broken(outcome == ModelFailed);
        return;
      }
      if outcome == Finished {
        end := Settled;
        return;
      }
    }
    end := OutOfSteps;
    RanOut(w, base, budget, maxSteps, t, midBatch, g);
  }

  lemma ExtendsItself(entries: seq<Entry>)
    ensures Extends(entries, entries)
  {
  }

  lemma RanOut(w: World, base: seq<ChatMessage>, budget: nat, maxSteps: nat, t: Turn, midBatch: bool, g: Story)
    requires Rolling(w, base, budget, maxSteps, t, midBatch, g) && t.step >= maxSteps
    ensures Halted(w, base, budget, maxSteps, t, OutOfSteps, midBatch, g)
  {
    hide FoldFirst, Legal, Compacted, Paired, Messages, Working, FaithfulRequests, AllPaired, Records, Streak, Rejections, OnePrompt;
    hide NoTerminals, AllWithTools, CourseFrom, CutsBatch, JournalBreaks, Modified, ClosedBy, ClosingEntry, OnCourse, InOrder;
    CourseEnds(w, maxSteps, budget, t.trail);
  }

  // ---------- the whole turn ----------

  /** What the first request carries: the system prompt, the pruned history, the user's prompt. */
  function Opening(w: World, raw: seq<ChatMessage>, prompt: Str): seq<ChatMessage>
  {
    [SystemMessage(w.prompts.system)] + Pruned(raw, HISTORY_TURNS) + [UserMessage(prompt)]
  }

  /** The system prompt, the history pruned to five turns, and the user's prompt, in this order. */
  lemma OpeningIs(w: World, raw: seq<ChatMessage>, prompt: Str)
    ensures Opening(w, raw, prompt) ==
      [ChatMessage(System, Some(Text(w.prompts.system)), None, None, None)] + Pruned(raw, 5)
      + [ChatMessage(User, Some(Text(prompt)), None, None, None)]
  {
  }

  lemma OpeningPaired(w: World, raw: seq<ChatMessage>, prompt: Str)
    ensures CutPoint(raw, HISTORY_TURNS) <= |raw|
    ensures Paired(Opening(w, raw, prompt)) <==> Paired(raw[CutPoint(raw, HISTORY_TURNS)..])
  {
    hide Pruned, CutPoint, Paired;
    PruningKeepsPairing(raw, HISTORY_TURNS);
    var sys, user := [SystemMessage(w.prompts.system)], [UserMessage(prompt)];
    var h := Pruned(raw, HISTORY_TURNS);
    PairedOne(sys[0]);
    PairedOne(user[0]);
    ConcatAssociates(sys, h, user);
    PairedConcat(sys, h + user);
    if Paired(h) { PairedConcat(h, user); }
    if Paired(h + user) { PairedFront(h, user[0]); }
  }

  lemma PairedFront(h: seq<ChatMessage>, m: ChatMessage)
    requires Paired(h + [m]) && m.role != Tool
    ensures Paired(h)
  {
    PairedSuffix(h + [m], |h|);
    assert (h + [m])[..|h|] == h;
  }

  lemma BudgetSpentIsProgress(trail: seq<Step>)
    requires Records(trail) >= 1
    ensures trail != []
  {
  }

  method Synthesize(w: World, ghost base: seq<ChatMessage>, ghost budget: nat, t: Turn, ghost g: Story)
    returns (u: Turn, ghost h: Story)
    requires Sound(base, budget, t, g, 0) && Open(base, t, g) && t.requests != []
    ensures FaithfulRequests(u.requests, h.snapshots, h.conversation)
    ensures Paired(base) ==> AllPaired(h.snapshots)
    ensures h.snapshots != [] && h.snapshots[0] == base
    ensures u.trail == t.trail && u.events == t.events
    ensures u.requests == t.requests + [Request(Compacted(g.conversation + [UserMessage(w.prompts.synthesis)]), false)]
    ensures h.snapshots == g.snapshots + [g.conversation + [UserMessage(w.prompts.synthesis)]]
    ensures u.entries == t.entries + if w.writes(t.clock.writes) then [SynthesisEntry(w, w.reply(|t.requests|))] else []
    ensures w.writes(t.clock.writes) ==> ClosedBy(u.entries, SynthesisEntry(w, w.reply(|t.requests|)))
    ensures Paired(Messages(u.entries)) && OnePrompt(u.entries) && t.entries <= u.entries
  {
    hide FoldFirst, Legal, Compacted, Paired, Messages, Cutoff, Records, Streak, Rejections, NoTerminals, OnePrompt;
    var said := [UserMessage(w.prompts.synthesis)];
    SayMore(base, budget, t, g, 0, said);
    PairedOne(said[0]);
    if Paired(base) { PairedConcat(g.conversation, said); }
    h := Said(g, said);
    WorkingCompact(t.active + said, h.conversation, h.folded);
    var active := CompactList(t.active + said);
    h := h.(folded := Cutoff(h.conversation), snapshots := h.snapshots + [h.conversation]);
    var reply := w.reply(|t.requests|);
    u := t.(active := active, requests := t.requests + [Request(active, false)],
            clock := t.clock.(writes := t.clock.writes + 1));
    var e := match reply
      case Completion(text, reasoning, _) =>
        AssistantEntry(if Blank(text) then w.prompts.synthesisFallback else text, reasoning, [], Stop)
      case ModelError(_) => AssistantEntry(w.prompts.synthesisFallback, "", [], Stop);
    if w.writes(t.clock.writes) {
      JournalTerminal(t.entries, e);
      OnePromptMore(t.entries, [e]);
      u := u.(entries := t.entries + [e]);
    }
  }

  /** The loop ran out of steps or of tool budget, and neither look at the token after that found
      it cancelled. */
  ghost predicate Synthesizes(w: World, maxSteps: nat, trail: seq<Step>)
  {
    var checks := ClockAt(trail).checks;
    !Ended(trail) && !w.cancelled(checks) && (|trail| >= maxSteps || !w.cancelled(checks + 1))
  }

  /** Where the synthesis is decided, from how the loop ended. */
  lemma SynthesisDecided(w: World, base: seq<ChatMessage>, budget: nat, maxSteps: nat, t: Turn, end: LoopEnd, midBatch: bool, g: Story)
    requires Sticky(w) && !end.Broken? && Halted(w, base, budget, maxSteps, t, end, midBatch, g)
    ensures Synthesizes(w, maxSteps, t.trail) <==>
      end != Settled && !w.cancelled(t.clock.checks) && (t.step >= maxSteps || end == OutOfBudget)
    ensures Synthesizes(w, maxSteps, t.trail) ==> (end == OutOfSteps || end == OutOfBudget) && !midBatch && Open(base, t, g)
    ensures Synthesizes(w, maxSteps, t.trail) ==> !Ended(t.trail) && t.clock.writes == ClockAt(t.trail).writes
  {
    hide FoldFirst, Legal, Compacted, Paired, Messages, Working, FaithfulRequests, AllPaired, Records, Streak, Rejections, OnePrompt;
    hide NoTerminals, AllWithTools, TrailOf, CutsBatch, JournalBreaks, Modified, ClosedBy, ClosingEntry, OnCourse, Sound;
    if CancelSeen(w, t) { assert w.cancelled(t.clock.checks); }
  }

  /** After the loop: a synthesis if it ran out of steps or of tool budget, then the events. */
  method Conclude(w: World, ghost base: seq<ChatMessage>, ghost budget: nat, maxSteps: nat, t: Turn, end: LoopEnd,
                  ghost midBatch: bool, ghost g: Story)
    returns (u: Turn, synthesized: bool, ghost h: Story)
    requires Sticky(w) && !end.Broken? && maxSteps >= 1 && budget >= 1
    requires Halted(w, base, budget, maxSteps, t, end, midBatch, g)
    ensures synthesized <==> Synthesizes(w, maxSteps, t.trail)
    ensures synthesized ==> end == OutOfSteps || end == OutOfBudget
    ensures !synthesized ==> u == t.(events := t.events + [TurnEnd, AgentSettled]) && h == g
    ensures synthesized ==> exists last :: u.requests == t.requests + [Request(last, false)]
    ensures synthesized ==> h.snapshots == g.snapshots + [g.conversation + [UserMessage(w.prompts.synthesis)]] && !Ended(t.trail)
    ensures u.entries == t.entries +
      if synthesized && w.writes(t.clock.writes) then [SynthesisEntry(w, w.reply(|t.requests|))] else []
    ensures synthesized ==> t.clock.writes == ClockAt(t.trail).writes
    ensures u.trail == t.trail && u.events == t.events + [TurnEnd, AgentSettled] && t.entries <= u.entries
    ensures FaithfulRequests(u.requests, h.snapshots, h.conversation)
    ensures Paired(base) ==> AllPaired(h.snapshots)
    ensures u.requests != [] ==> |h.snapshots| > 0 && h.snapshots[0] == base
    ensures synthesized && w.writes(t.clock.writes) ==> ClosedBy(u.entries, SynthesisEntry(w, w.reply(|t.requests|)))
    ensures (Paired(Messages(u.entries)) <==> !midBatch) && InOrder(u.entries)
    ensures OnePrompt(u.entries)
  {
    hide FoldFirst, Legal, Compacted, Paired, Messages, Records, Streak, Rejections, Pruned, CutPoint, Synthesizes;
    hide FaithfulRequests, AllPaired, Sound, OnePrompt, Open, Closed, ClosedBy, SynthesisEntry, AllWithTools, WasCut, ModelFails, JournalFails;
    hide TrailOf, OnCourse, Clocked, ClosingEntry, Stops, InOrder;
    SoundGives(base, budget, t, g);
    SynthesisDecided(w, base, budget, maxSteps, t, end, midBatch, g);
    u, h, synthesized := t, g, false;
    if end != Settled {
      var cancelled := w.cancelled(t.clock.checks);
      if !cancelled && (t.step >= maxSteps || end == OutOfBudget) {
        if end == OutOfBudget { BudgetSpentIsProgress(t.trail); }
        u, h := Synthesize(w, base, budget, t, g);
        PairedInOrder(u.entries);
        synthesized := true;
      }
    }
    u := u.(events := u.events + [TurnEnd, AgentSettled]);
  }

  /** Never seen cancelled, and every journal write succeeds. */
  ghost predicate Calm(w: World)
  {
    w.modelFound && Writable(w) && forall n :: !w.cancelled(n)
  }

  /** The turn gets as far as its loop. */
  predicate Reaches(w: World) { w.modelFound && w.writes(0) }

  /** The steps of a turn, as the world determines them. */
  ghost function TurnTrail(w: World, configuredSteps: nat, configuredBudget: nat): seq<Step>
  {
    if Reaches(w) then TrailOf(w, MaxSteps(configuredSteps), ToolBudget(configuredBudget)) else []
  }

  method Run(w: World, configuredSteps: nat, configuredBudget: nat, raw: seq<ChatMessage>, prompt: Str)
    returns (ok: bool, t: Turn, synthesized: bool, midBatch: bool, ghost g: Story)
    requires Sticky(w)
    // the course of the turn, and how it fails
    ensures t.trail == TurnTrail(w, configuredSteps, configuredBudget)
    ensures synthesized <==> Reaches(w) && Synthesizes(w, MaxSteps(configuredSteps), t.trail)
    ensures synthesized ==> !Ended(t.trail) && !w.cancelled(|t.trail| + Records(t.trail))
    ensures Calm(w) ==> (synthesized <==> !Ended(t.trail))
    ensures midBatch <==> WasCut(w, t.trail)
    ensures ok <==> Reaches(w) && !ModelFails(w, t.trail) && !JournalFails(w, t.trail)
    // what is said: the conversation before each request, and the journal
    ensures Transcript(w, Opening(w, raw, prompt), t.trail, synthesized, g.snapshots)
    ensures if Reaches(w) then Record(w, prompt, t.trail, synthesized, t.entries) else t.entries == []
    // requests
    ensures FaithfulRequests(t.requests, g.snapshots, g.conversation)
    ensures t.requests != [] ==> |g.snapshots| > 0 && g.snapshots[0] == Opening(w, raw, prompt)
    ensures CutPoint(raw, HISTORY_TURNS) <= |raw|
    ensures t.requests != [] ==>
      (Paired(raw[CutPoint(raw, HISTORY_TURNS)..]) <==> forall k :: 0 <= k < |t.requests| ==> Paired(t.requests[k].messages))
    // number of model calls
    ensures |t.requests| == |t.trail| + (if synthesized then 1 else 0)
    ensures |t.trail| <= MaxSteps(configuredSteps) && |t.trail| <= 3 * ToolBudget(configuredBudget) + 2
    ensures Legal(t.trail, ToolBudget(configuredBudget))
    ensures forall k :: 0 <= k < |t.requests| ==> (t.requests[k].tools <==> k < |t.trail|)
    // journal
    ensures Calm(w) ==> t.requests != [] && t.entries != [] && t.entries[0] == UserEntry(prompt)
    ensures Calm(w) ==>
      var reply := w.reply(|t.requests| - 1);
      ClosedBy(t.entries, if synthesized then SynthesisEntry(w, reply) else ClosingEntry(w, reply))
    ensures (Paired(Messages(t.entries)) <==> !WasCut(w, t.trail)) && InOrder(t.entries)
    ensures t.entries != [] ==> OnePrompt(t.entries)
    // events
    ensures t.events == if ok || ModelFails(w, t.trail) then [TurnEnd, AgentSettled] else []
  {
    hide FoldFirst, Legal, Compacted, Paired, Messages, Records, Streak, Rejections, Pruned, CutPoint;
    hide FaithfulRequests, AllPaired, Sound, OnePrompt, Opening, Open, Closed, ClosedBy, ClosingEntry, SynthesisEntry;
    hide TrailOf, OnCourse, CutsBatch, JournalBreaks, Clocked, Synthesizes, InOrder, Scripted, Transcript, Record;
    hide ModelFails, JournalFails, WasCut;
    ghost var base := Opening(w, raw, prompt);
    OpeningPaired(w, raw, prompt);
    NothingSent();
    NothingSaid(w, base, prompt);
    var budget := ToolBudget(configuredBudget);
    var maxSteps := MaxSteps(configuredSteps);
    t := Turn([], [], [], [], Clock(0, 0, 0), 0, 0, 0, false, []);
    g := Story([], 0, [], []);
    ok, synthesized, midBatch := false, false, false;
    StartTurn(w, base, budget, maxSteps, prompt);
    if !w.modelFound {
      return;
    }
    var history := PruneHistoryMessages(raw, HISTORY_TURNS);
    t := t.(clock := t.clock.(writes := 1));
    if !w.writes(0) {
      return;
    }
    var active := [SystemMessage(w.prompts.system)] + history + [UserMessage(prompt)];
    assert active == base by { OpeningIs(w, raw, prompt); }
    t := t.(active := active, entries := [UserEntry(prompt)]);
    var end;
    t, end, midBatch, g := TakeSteps(w, base, budget, maxSteps, t, Story(active, 0, [], t.entries));
    ok, t, synthesized, g := FinishTurn(w, base, budget, maxSteps, t, end, midBatch, prompt, g);
    WhenSynthesized(w, maxSteps, t.trail);
  }

  /** A cancelled turn is not summed up, and an undisturbed one is unless a step closed it. */
  lemma WhenSynthesized(w: World, maxSteps: nat, t: seq<Step>)
    ensures Synthesizes(w, maxSteps, t) ==> !Ended(t) && !w.cancelled(|t| + Records(t))
    ensures Calm(w) ==> (Synthesizes(w, maxSteps, t) <==> !Ended(t))
  {
    hide Records;
  }

  /** What follows the loop: an error is passed on, anything else is concluded. */
  method FinishTurn(w: World, ghost base: seq<ChatMessage>, ghost budget: nat, maxSteps: nat, t: Turn, end: LoopEnd,
                    ghost midBatch: bool, ghost prompt: Str, ghost g: Story)
    returns (ok: bool, u: Turn, synthesized: bool, ghost h: Story)
    requires Sticky(w) && maxSteps >= 1 && budget >= 1 && Halted(w, base, budget, maxSteps, t, end, midBatch, g)
    requires g.opening == [UserEntry(prompt)]
    ensures u.trail == t.trail && t.entries <= u.entries
    ensures synthesized <==> Synthesizes(w, maxSteps, t.trail)
    ensures ok <==> !ModelFails(w, t.trail) && !JournalFails(w, t.trail)
    ensures Transcript(w, base, t.trail, synthesized, h.snapshots) && Record(w, prompt, t.trail, synthesized, u.entries)
    ensures FaithfulRequests(u.requests, h.snapshots, h.conversation)
    ensures u.requests != [] ==> |h.snapshots| > 0 && h.snapshots[0] == base
    ensures u.requests != [] ==> (Paired(base) <==> forall k :: 0 <= k < |u.requests| ==> Paired(u.requests[k].messages))
    ensures |u.requests| == |t.trail| + (if synthesized then 1 else 0)
    ensures |t.trail| <= 3 * budget + 2 && Legal(t.trail, budget)
    ensures forall k :: 0 <= k < |u.requests| ==> (u.requests[k].tools <==> k < |t.trail|)
    ensures Calm(w) ==>
      u.requests != [] &&
      var reply := w.reply(|u.requests| - 1);
      ClosedBy(u.entries, if synthesized then SynthesisEntry(w, reply) else ClosingEntry(w, reply))
    ensures (Paired(Messages(u.entries)) <==> !WasCut(w, t.trail)) && InOrder(u.entries) && OnePrompt(u.entries)
    ensures u.events == if ok || ModelFails(w, t.trail) then [TurnEnd, AgentSettled] else []
  {
    hide FoldFirst, Legal, Compacted, Paired, Messages, Records, Streak, Rejections, Pruned, CutPoint;
    hide FaithfulRequests, AllPaired, Sound, OnePrompt, Opening, Open, Closed, ClosedBy, ClosingEntry, SynthesisEntry;
    hide TrailOf, OnCourse, CutsBatch, JournalBreaks, Clocked, Synthesizes, InOrder, Scripted, Transcript, Record;
    hide Halted, WasCut, ModelFails, JournalFails;
    HaltedGives(w, base, budget, maxSteps, t, end, midBatch, g);
    ScriptGives(w, base, budget, maxSteps, t, end, midBatch, g, prompt);
    TrailBound(t.trail, budget);
    if Calm(w) { CalmEnds(w, base, budget, maxSteps, t, end, midBatch, g); }
    ok, u, synthesized, h := false, t, false, g;
    if end.Broken? {
      RequestsPaired(base, t.requests, g);
      NoSynthesisWhenEnded(w, maxSteps, t.trail);
      return;
    }
    u, synthesized, h := Conclude(w, base, budget, maxSteps, t, end, midBatch, g);
    if synthesized { SynthesisSaid(w, base, prompt, t, g, u.entries, h.snapshots); }
    RequestsPaired(base, u.requests, h);
    ok := true;
  }

  lemma NothingSaid(w: World, base: seq<ChatMessage>, prompt: Str)
    ensures Transcript(w, base, [], false, []) && Record(w, prompt, [], false, [UserEntry(prompt)])
  {
  }

  /** What the ending of the loop says about the turn, whichever it is. */
  lemma HaltedGives(w: World, base: seq<ChatMessage>, budget: nat, maxSteps: nat, t: Turn, end: LoopEnd, midBatch: bool, g: Story)
    requires Halted(w, base, budget, maxSteps, t, end, midBatch, g)
    ensures FaithfulRequests(t.requests, g.snapshots, g.conversation)
    ensures Paired(base) ==> AllPaired(g.snapshots)
    ensures t.requests != [] ==> |g.snapshots| > 0 && g.snapshots[0] == base
    ensures |t.requests| == |t.trail| && Legal(t.trail, budget) && OnePrompt(t.entries)
    ensures forall k :: 0 <= k < |t.requests| ==> t.requests[k].tools
    ensures (Paired(Messages(t.entries)) <==> !WasCut(w, t.trail)) && InOrder(t.entries) && (midBatch <==> WasCut(w, t.trail))
    ensures (end == Broken(true) <==> ModelFails(w, t.trail)) && (end == Broken(false) <==> JournalFails(w, t.trail))
    ensures end.Broken? ==> Ended(t.trail)
    ensures t.events == if end == Broken(true) then [TurnEnd, AgentSettled] else []
  {
    hide FoldFirst, Legal, Compacted, Paired, Messages, FaithfulRequests, AllPaired, OnePrompt, Open, ClosedBy, ClosingEntry;
    hide TrailOf, OnCourse, CutsBatch, JournalBreaks, Clocked, InOrder, Scripted, Sound;
    SoundGives(base, budget, t, g);
  }

  /** The story of the loop is that of the world. */
  lemma ScriptGives(w: World, base: seq<ChatMessage>, budget: nat, maxSteps: nat, t: Turn, end: LoopEnd, midBatch: bool, g: Story, prompt: Str)
    requires Halted(w, base, budget, maxSteps, t, end, midBatch, g) && g.opening == [UserEntry(prompt)]
    ensures Transcript(w, base, t.trail, false, g.snapshots) && Record(w, prompt, t.trail, false, t.entries)
    ensures !Ended(t.trail) ==> g.conversation == Conversation(w, base, t.trail)
  {
    hide Conversation, Journaled, Sound, TrailOf, OnCourse, Paired, Messages, InOrder, WasCut, ModelFails, JournalFails, Open, Clocked;
    hide ClosedBy, ClosingEntry, Records, AllWithTools, CancelSeen, Writable, ClockAt;
  }

  lemma SynthesisSaid(w: World, base: seq<ChatMessage>, prompt: Str, t: Turn, g: Story, entries: seq<Entry>, snapshots: seq<seq<ChatMessage>>)
    requires Transcript(w, base, t.trail, false, g.snapshots) && Record(w, prompt, t.trail, false, t.entries)
    requires g.conversation == Conversation(w, base, t.trail) && |t.requests| == |t.trail|
    requires snapshots == g.snapshots + [g.conversation + [UserMessage(w.prompts.synthesis)]]
    requires entries == t.entries + if w.writes(ClockAt(t.trail).writes) then [SynthesisEntry(w, w.reply(|t.requests|))] else []
    ensures Transcript(w, base, t.trail, true, snapshots) && Record(w, prompt, t.trail, true, entries)
  {
    hide Conversation, Journaled, SynthesisEntry, ClockAt;
  }

  lemma NoSynthesisWhenEnded(w: World, maxSteps: nat, trail: seq<Step>)
    ensures Ended(trail) ==> !Synthesizes(w, maxSteps, trail)
  {
    hide ClockAt;
  }

  /** A calm turn is closed by its last reply, or has room for a synthesis. */
  lemma CalmEnds(w: World, base: seq<ChatMessage>, budget: nat, maxSteps: nat, t: Turn, end: LoopEnd, midBatch: bool, g: Story)
    requires Calm(w) && Halted(w, base, budget, maxSteps, t, end, midBatch, g) && maxSteps >= 1 && budget >= 1
    ensures t.requests != []
    ensures end == Settled || end == Broken(true) || (Synthesizes(w, maxSteps, t.trail) && (end == OutOfSteps || end == OutOfBudget))
    ensures end == Settled || end == Broken(true) ==> ClosedBy(t.entries, ClosingEntry(w, w.reply(|t.requests| - 1)))
  {
    hide FoldFirst, Legal, Compacted, Paired, Messages, Working, FaithfulRequests, AllPaired, Streak, Rejections, OnePrompt;
    hide NoTerminals, AllWithTools, TrailOf, Modified, ClosedBy, ClosingEntry, OnCourse, Sound, CutsBatch;
    CalmJournal(w, t.trail);
  }

  lemma CalmJournal(w: World, trail: seq<Step>)
    requires Calm(w)
    ensures !JournalFails(w, trail) && !WasCut(w, trail)
  {
    hide ClockAt, AllUndisturbed;
    if trail != [] {
      var c, n := BatchClock(Front(trail)), |trail|;
      CalmBatch(w, c);
    }
  }

  lemma CalmBatch(w: World, clock: Clock)
    requires Calm(w)
    ensures forall n :: AllUndisturbed(w, clock, n) && !FailsToWrite(w, clock, n)
  {
  }

  lemma StartTurn(w: World, base: seq<ChatMessage>, budget: nat, maxSteps: nat, prompt: Str)
    requires budget >= 1
    ensures Rolling(w, base, budget, maxSteps, Opened(base, prompt), false, Story(base, 0, [], [UserEntry(prompt)]))
    ensures Legal([], budget) && Paired(Messages([])) && InOrder([]) && !WasCut(w, []) && !ModelFails(w, []) && AllWithTools([])
  {
    hide CourseFrom, InOrder;
    JournalOne([], UserEntry(prompt));
    PairedInOrder([]);
    PairedInOrder([UserEntry(prompt)]);
    assert [] + [UserEntry(prompt)] == [UserEntry(prompt)];
  }

  function Opened(base: seq<ChatMessage>, prompt: Str): Turn
  {
    Turn(base, [], [UserEntry(prompt)], [], Clock(0, 1, 0), 0, 0, 0, false, [])
  }

  lemma NothingSent()
    ensures FaithfulRequests([], [], [])
  {
  }

  lemma SoundGives(base: seq<ChatMessage>, budget: nat, t: Turn, g: Story)
    requires Sound(base, budget, t, g, 0)
    ensures FaithfulRequests(t.requests, g.snapshots, g.conversation)
    ensures Paired(base) ==> AllPaired(g.snapshots)
    ensures t.requests != [] ==> |g.snapshots| > 0 && g.snapshots[0] == base
    ensures |t.requests| == |t.trail| == t.step && Legal(t.trail, budget) && OnePrompt(t.entries)
  {
  }

  lemma RequestsPaired(base: seq<ChatMessage>, requests: seq<Request>, g: Story)
    requires FaithfulRequests(requests, g.snapshots, g.conversation)
    requires Paired(base) ==> AllPaired(g.snapshots)
    requires requests != [] ==> |g.snapshots| > 0 && g.snapshots[0] == base
    ensures requests != [] ==> (Paired(base) <==> forall k :: 0 <= k < |requests| ==> Paired(requests[k].messages))
  {
    hide Paired, Compacted;
    forall k | 0 <= k < |requests| ensures Paired(requests[k].messages) <==> Paired(g.snapshots[k]) {
      CompactionKeepsPairing(g.snapshots[k]);
    }
  }

  lemma NewestTurnIs(raw: seq<ChatMessage>, turn: seq<ChatMessage>)
    requires turn != [] && forall i :: 0 <= i < |turn| ==> (IsUser(turn[i]) <==> i == 0)
    ensures Users(raw + turn) > 0 && LastUser(raw + turn) == |raw|
  {
    var all := raw + turn;
    forall i | |raw| <= i < |all| ensures IsUser(all[i]) <==> i == |raw| {
      assert all[i] == turn[i - |raw|];
    }
    LastUserUnique(all, |raw|);
  }

  /** From one turn to the next. After a history that is in order and a newest turn, the next
      requests are in order exactly when that turn is: a batch cut by a cancellation reaches the
      provider with the next prompt, whatever is pruned. */
  lemma NewestTurnDecides(raw: seq<ChatMessage>, turn: seq<ChatMessage>)
    requires Paired(raw) && turn != [] && forall i :: 0 <= i < |turn| ==> (IsUser(turn[i]) <==> i == 0)
    ensures CutPoint(raw + turn, HISTORY_TURNS) <= |raw + turn|
    ensures Paired((raw + turn)[CutPoint(raw + turn, HISTORY_TURNS)..]) <==> Paired(turn)
  {
    hide Paired, CutPoint, LastUser;
    var all := raw + turn;
    var c := CutPoint(all, HISTORY_TURNS);
    NewestTurnIs(raw, turn);
    CutPointStops(all, HISTORY_TURNS);
    assert all[c..] == raw[c..] + turn;
    if c < |raw| {
      assert all[c] == raw[c];
      if c == 0 { assert raw[0..] == raw; } else { PairedSuffix(raw, c); }
    } else {
      PairedSuffix(raw, c);
    }
    PairedConcat(raw[c..], turn);
  }

  /** The spawned task of one prompt: a failed turn is closed again by the session manager, so the
      events are doubled exactly when the turn failed at the model and had closed itself. */
  method PromptTask(w: World, configuredSteps: nat, configuredBudget: nat, raw: seq<ChatMessage>, prompt: Str)
    returns (events: seq<Event>)
    requires Sticky(w)
    ensures events ==
      if ModelFails(w, TurnTrail(w, configuredSteps, configuredBudget)) then [TurnEnd, AgentSettled, TurnEnd, AgentSettled]
      else [TurnEnd, AgentSettled]
  {
    hide TurnTrail, ModelFails, JournalFails, Paired, CutPoint, Pruned, Opening, FaithfulRequests, WasCut;
    var ok, t, _, _, _ := Run(w, configuredSteps, configuredBudget, raw, prompt);
    events := t.events;
    if !ok {
      events := events + [TurnEnd, AgentSettled];
    }
  }

  /** A turn whose first reply is an error, its prompt journaled and not cancelled before, fails at
      the model at once. */
  lemma FirstReplyFails(w: World, configuredSteps: nat, configuredBudget: nat)
    requires Reaches(w) && !w.cancelled(0) && w.reply(0).ModelError?
    ensures TurnTrail(w, configuredSteps, configuredBudget) == [Last]
    ensures ModelFails(w, TurnTrail(w, configuredSteps, configuredBudget))
  {
    var maxSteps, budget := MaxSteps(configuredSteps), ToolBudget(configuredBudget);
    assert StepTaken(w, []) == Last;
    StepMade(w, maxSteps, budget, []);
    assert [] + [Last] == [Last];
  }

  /** Such a world. */
  function ErrorWorld(p: Prompts): World
  {
    World(true, n => false, n => true, n => ModelError("e"), n => ToolOutcome("", false, "", None),
      n => Reviewer(false, false, false), n => Approved, p)
  }

  lemma ErrorWorldFails(p: Prompts, configuredSteps: nat, configuredBudget: nat)
    ensures Sticky(ErrorWorld(p)) && ModelFails(ErrorWorld(p), TurnTrail(ErrorWorld(p), configuredSteps, configuredBudget))
  {
    hide TurnTrail, ModelFails;
    FirstReplyFails(ErrorWorld(p), configuredSteps, configuredBudget);
  }

  /** The bound on the model calls is reached by a turn: without a step limit, and with a tool budget
      that leaves the count within a `usize`, there is a calm world in which `Run` takes 3B + 2 steps
      and then asks for a synthesis. */
  lemma TightTurn(p: Prompts, configuredBudget: nat)
    requires 3 * ToolBudget(configuredBudget) + 2 <= USIZE_MAX
    ensures Sticky(TightWorld(p)) && Calm(TightWorld(p))
    ensures |TurnTrail(TightWorld(p), 0, configuredBudget)| == 3 * ToolBudget(configuredBudget) + 2
    ensures Synthesizes(TightWorld(p), MaxSteps(0), TurnTrail(TightWorld(p), 0, configuredBudget))
  {
    hide CourseFrom, LongestTrail;
    var budget := ToolBudget(configuredBudget);
    BoundIsReached(p, MaxSteps(0), budget);
    TrailBoundIsTight(budget, budget);
  }
}
