/** Overlapping turns of a session: a prompt supersedes a turn that is still running a tool, both
    write to one journal file, and a third turn may load it at any moment. */
module SharedJournal {
  import opened Text
  import opened Json
  import opened Protocol
  import opened Entries
  import opened Turns
  import opened PruneShape
  import opened Pairing
  import opened TurnLoop
  import opened RunTurn
  import opened Journal
  import opened Session
  import opened Interleaving

  // ---------- the messages of a journal, by turn ----------

  /** The entries of one turn among the records of a file. */
  function EntriesBy(log: seq<Signed>, turn: nat): seq<Entry>
  {
    if log == [] then []
    else EntriesBy(log[..|log| - 1], turn) + EntryOf(log[|log| - 1], turn)
  }

  function EntryOf(s: Signed, turn: nat): seq<Entry>
  {
    if s.writer == turn && s.record.Message? then [s.record.entry] else []
  }

  function MessageOf(s: Signed): seq<Tagged>
  {
    if s.record.Message? then [Tagged(s.writer, EntryMessage(s.record.entry))] else []
  }

  /** The messages that the records stand for, tagged with the turn that wrote them. */
  function MessagesOf(log: seq<Signed>): seq<Tagged>
  {
    if log == [] then [] else MessagesOf(log[..|log| - 1]) + MessageOf(log[|log| - 1])
  }

  /** Each turn's entries are in the order in which a turn writes them. */
  ghost predicate TurnsInOrder(log: seq<Signed>)
  {
    forall turn :: InOrder(EntriesBy(log, turn))
  }

  lemma {:induction false} WrittenIsEntries(log: seq<Signed>, turn: nat)
    ensures WrittenBy(MessagesOf(log), turn) == Messages(EntriesBy(log, turn))
  {
    if log == [] {
    } else {
      var front, last := log[..|log| - 1], log[|log| - 1];
      WrittenIsEntries(front, turn);
      MessagesOfConcat(EntriesBy(front, turn), EntryOf(last, turn));
      if last.record.Message? {
        assert MessagesOf(log)[..|MessagesOf(log)| - 1] == MessagesOf(front);
        if last.writer == turn { MessagesAt(EntryOf(last, turn), 0); }
      } else {
        assert MessagesOf(log) == MessagesOf(front);
      }
    }
  }

  lemma {:induction false} LoadedWiring(log: seq<Signed>, parse: string -> Option<Json>)
    ensures var raw, ms := ReloadedAll(RecordsOf(log), parse), Plain(MessagesOf(log));
      |raw| == |ms| && forall i :: 0 <= i < |ms| ==> SameWiring(raw[i], ms[i])
  {
    hide SameWiring, Reloaded, EntryMessage;
    if log == [] {
    } else {
      var front, last := log[..|log| - 1], log[|log| - 1];
      LoadedWiring(front, parse);
      assert RecordsOf(log)[..|log| - 1] == RecordsOf(front);
      if last.record.Message? { ReloadKeepsWiring(last.record.entry, parse); }
    }
  }

  /** Loading the file gives the messages written to it, up to payload text. */
  lemma LoadedIsWritten(actions: seq<Action>, parse: string -> Option<Json>)
    ensures var raw, ms := LoadAll(AfterActions(Disk([], map[]), actions).lines, parse), MessagesOf(LogOf([], actions));
      |raw| == |ms| && forall i :: 0 <= i < |ms| ==> SameWiring(raw[i], Plain(ms)[i])
  {
    hide *;
    var log := LogOf([], actions);
    RunReloads([], actions, parse);
    NothingLoaded(parse);
    LoadedWiring(log, parse);
    assert [] + ReloadedAll(RecordsOf(log), parse) == LoadAll(AfterActions(Disk([], map[]), actions).lines, parse);
  }

  // ---------- any interleaving ----------

  /** No turn that writes from message `c` on has left a call unanswered. */
  ghost predicate NoneUnanswered(log: seq<Signed>, c: nat)
  {
    forall j :: c <= j < |MessagesOf(log)| ==> Paired(Messages(EntriesBy(log, MessagesOf(log)[j].turn)))
  }

  lemma TurnsAreOrderly(log: seq<Signed>)
    requires TurnsInOrder(log)
    ensures Orderly(MessagesOf(log))
  {
    hide Messages, Awaited, WrittenBy;
    forall turn ensures OpenCalls(MessagesOf(log), turn).Some? {
      assert InOrder(EntriesBy(log, turn));
      WrittenIsEntries(log, turn);
    }
  }

  lemma AnsweredIff(log: seq<Signed>, c: nat)
    ensures Answered(MessagesOf(log), c) <==> NoneUnanswered(log, c)
  {
    hide Messages, Awaited, WrittenBy, Paired;
    var ms := MessagesOf(log);
    forall j | c <= j < |ms| ensures OpenCalls(ms, ms[j].turn) == Some([]) <==> Paired(Messages(EntriesBy(log, ms[j].turn))) {
      WrittenIsEntries(log, ms[j].turn);
      PairedIffNothingAwaited(Messages(EntriesBy(log, ms[j].turn)));
    }
  }

  /** A journal of overlapping turns, loaded at any moment. From any message on it is in order exactly
      when no turn that writes there has left a call unanswered, and no message of another turn stands
      between a call and its last result. */
  lemma LoadedInOrderIff(actions: seq<Action>, parse: string -> Option<Json>, c: nat)
    requires TurnsInOrder(LogOf([], actions))
    requires c == 0 || DistinctCalls(MessagesOf(LogOf([], actions))) || Together(MessagesOf(LogOf([], actions)), c)
    requires c <= |LoadAll(AfterActions(Disk([], map[]), actions).lines, parse)|
    ensures var raw, log := LoadAll(AfterActions(Disk([], map[]), actions).lines, parse), LogOf([], actions);
      |raw| == |MessagesOf(log)|
      && (Paired(raw[c..]) <==> NoneUnanswered(log, c) && Together(MessagesOf(log), c))
  {
    hide *;
    var log := LogOf([], actions);
    var raw, ms := LoadAll(AfterActions(Disk([], map[]), actions).lines, parse), Plain(MessagesOf(log));
    LoadedIsWritten(actions, parse);
    TurnsAreOrderly(log);
    InOrderIff(MessagesOf(log), c);
    AnsweredIff(log, c);
    forall i | 0 <= i < |raw| - c ensures SameWiring(raw[c..][i], ms[c..][i]) {
      assert raw[c..][i] == raw[c + i] && ms[c..][i] == ms[c + i];
    }
    WiringDecidesPairing(raw[c..], ms[c..]);
  }

  /** What a turn keeps of the history it loads is in order exactly under these conditions on the
      turns that write in the kept part. */
  ghost predicate KeptInOrder(log: seq<Signed>, raw: seq<ChatMessage>)
  {
    var c := CutPoint(raw, HISTORY_TURNS);
    NoneUnanswered(log, c) && Together(MessagesOf(log), c)
  }

  /** A turn among others. It loads the file at any moment, whatever turns have written to it so far,
      finished or not: its requests are in order exactly when the kept part of the file is. What it
      writes is in a turn's own order, at any moment, and it leaves a call unanswered exactly when the
      world cut one of its batches. */
  method TurnAmongOthers(w: World, configuredSteps: nat, configuredBudget: nat, actions: seq<Action>,
                         parse: string -> Option<Json>, prompt: Str)
    returns (ok: bool, t: Turn)
    requires Sticky(w)
    requires TurnsInOrder(LogOf([], actions)) && DistinctCalls(MessagesOf(LogOf([], actions)))
    ensures t.requests != [] ==>
      ((forall k :: 0 <= k < |t.requests| ==> Paired(t.requests[k].messages)) <==>
       KeptInOrder(LogOf([], actions), LoadAll(AfterActions(Disk([], map[]), actions).lines, parse)))
    ensures forall n :: 0 <= n <= |t.entries| ==> InOrder(t.entries[..n])
    ensures Paired(Messages(t.entries)) <==> !WasCut(w, TurnTrail(w, configuredSteps, configuredBudget))
  {
    hide *;
    var file := AfterActions(Disk([], map[]), actions).lines;
    var done, turn, _, _, _ := Run(w, configuredSteps, configuredBudget, LoadAll(file, parse), prompt);
    ok, t := done, turn;
    KeptIff(actions, parse);
    forall n | 0 <= n <= |t.entries| ensures InOrder(t.entries[..n]) {
      InOrderSoFar(t.entries, n);
    }
  }

  lemma KeptIff(actions: seq<Action>, parse: string -> Option<Json>)
    requires TurnsInOrder(LogOf([], actions)) && DistinctCalls(MessagesOf(LogOf([], actions)))
    ensures var raw := LoadAll(AfterActions(Disk([], map[]), actions).lines, parse);
      CutPoint(raw, HISTORY_TURNS) <= |raw|
      && (Paired(raw[CutPoint(raw, HISTORY_TURNS)..]) <==> KeptInOrder(LogOf([], actions), raw))
  {
    hide LoadAll, AfterActions, LogOf, CutPoint, NoneUnanswered, Together, Paired, TurnsInOrder, DistinctCalls;
    var raw := LoadAll(AfterActions(Disk([], map[]), actions).lines, parse);
    CutAtUser(raw);
    LoadedInOrderIff(actions, parse, CutPoint(raw, HISTORY_TURNS));
  }

  /** When no two turns overlap, only unanswered calls matter. */
  lemma ApartKeptIff(actions: seq<Action>, parse: string -> Option<Json>)
    requires TurnsInOrder(LogOf([], actions)) && Apart(MessagesOf(LogOf([], actions)))
    ensures var raw := LoadAll(AfterActions(Disk([], map[]), actions).lines, parse);
      CutPoint(raw, HISTORY_TURNS) <= |raw|
      && (Paired(raw[CutPoint(raw, HISTORY_TURNS)..]) <==> NoneUnanswered(LogOf([], actions), CutPoint(raw, HISTORY_TURNS)))
  {
    hide *;
    var log, raw := LogOf([], actions), LoadAll(AfterActions(Disk([], map[]), actions).lines, parse);
    KeepsSome();
    var c := CutPoint(raw, HISTORY_TURNS);
    CutAtUser(raw);
    LoadedIsWritten(actions, parse);
    if c < |raw| && c > 0 { UserStaysUser(raw[c], Plain(MessagesOf(log))[c]); }
    TurnsAreOrderly(log);
    ApartTogether(MessagesOf(log), c);
    LoadedInOrderIff(actions, parse, c);
  }

  lemma UserStaysUser(a: ChatMessage, b: ChatMessage)
    requires SameWiring(a, b) && IsUser(a)
    ensures b.role != Tool
  {
  }

  // ---------- a superseded turn ----------

  /** A second prompt arrives while the first turn runs its only call: the second turn loads the file
      and journals its prompt, the tool returns, the second turn answers. */
  function FirstUntilCall(c: ToolCall, st: Stamp): seq<Action>
  {
    var none: seq<Action> := [];
    none + [Action.Open(1)] + [Write(1, Message(UserEntry("p")), "a", st, true)]
      + [Write(1, Message(AssistantEntry("", "", [c], ToolUse)), "b", st, true)]
  }

  function SecondMeanwhile(c: ToolCall, st: Stamp): seq<Action>
  {
    FirstUntilCall(c, st)
      + [Action.Open(2)] + [Write(2, Message(UserEntry("q")), "c", st, true)]
      + [Write(1, Message(ToolEntry(c.id, c.name, "", false)), "d", st, true)]
      + [Write(2, Message(AssistantEntry("x", "", [], Stop)), "e", st, true)]
  }

  function Writers(actions: seq<Action>): set<nat> { AfterActions(Disk([], map[]), actions).writers.Keys }

  lemma OpenedMore(actions: seq<Action>, w: nat)
    ensures LogOf([], actions + [Action.Open(w)]) == LogOf([], actions)
    ensures Writers(actions + [Action.Open(w)]) == Writers(actions) + {w}
  {
    assert (actions + [Action.Open(w)])[..|actions|] == actions;
  }

  lemma WroteMore(actions: seq<Action>, w: nat, r: Record, id: Str, st: Stamp)
    requires w in Writers(actions)
    ensures LogOf([], actions + [Write(w, r, id, st, true)]) == LogOf([], actions) + [Signed(w, r)]
    ensures Writers(actions + [Write(w, r, id, st, true)]) == Writers(actions)
  {
    hide Document;
    assert (actions + [Write(w, r, id, st, true)])[..|actions|] == actions;
  }

  function TheCall(c: ToolCall): Entry { AssistantEntry("", "", [c], ToolUse) }
  function TheResult(c: ToolCall): Entry { ToolEntry(c.id, c.name, "", false) }

  /** The records in the file at the two moments. */
  function LogUntilCall(c: ToolCall): seq<Signed>
  {
    var none: seq<Signed> := [];
    none + [Signed(1, Message(UserEntry("p")))] + [Signed(1, Message(TheCall(c)))]
  }

  function LogMeanwhile(c: ToolCall): seq<Signed>
  {
    LogUntilCall(c) + [Signed(2, Message(UserEntry("q")))] + [Signed(1, Message(TheResult(c)))]
      + [Signed(2, Message(AssistantEntry("x", "", [], Stop)))]
  }

  lemma SupersedingLogs(c: ToolCall, st: Stamp)
    ensures LogOf([], FirstUntilCall(c, st)) == LogUntilCall(c)
    ensures LogOf([], SecondMeanwhile(c, st)) == LogMeanwhile(c)
  {
    hide LogOf, Writers, AfterActions;
    var none: seq<Action> := [];
    assert LogOf([], none) == [] && Writers(none) == {} by { NothingWritten(); }
    OpenedMore(none, 1);
    var a := none + [Action.Open(1)];
    WroteMore(a, 1, Message(UserEntry("p")), "a", st);
    a := a + [Write(1, Message(UserEntry("p")), "a", st, true)];
    WroteMore(a, 1, Message(TheCall(c)), "b", st);
    a := FirstUntilCall(c, st);
    OpenedMore(a, 2);
    a := a + [Action.Open(2)];
    WroteMore(a, 2, Message(UserEntry("q")), "c", st);
    a := a + [Write(2, Message(UserEntry("q")), "c", st, true)];
    WroteMore(a, 1, Message(TheResult(c)), "d", st);
    a := a + [Write(1, Message(TheResult(c)), "d", st, true)];
    WroteMore(a, 2, Message(AssistantEntry("x", "", [], Stop)), "e", st);
  }

  lemma NothingWritten()
    ensures LogOf([], []) == [] && Writers([]) == {}
  {
  }

  lemma OneMoreRecord(log: seq<Signed>, s: Signed, turn: nat)
    ensures MessagesOf(log + [s]) == MessagesOf(log) + MessageOf(s)
    ensures EntriesBy(log + [s], turn) == EntriesBy(log, turn) + EntryOf(s, turn)
  {
    assert (log + [s])[..|log + [s]| - 1] == log;
  }

  lemma EntryAwaits(entries: seq<Entry>, e: Entry)
    ensures Awaited(Messages(entries + [e])) == AwaitNext(Awaited(Messages(entries)), EntryMessage(e))
  {
    hide Awaited, AwaitNext;
    MessagesOfConcat(entries, [e]);
    MessagesAt([e], 0);
    assert Messages([e]) == [EntryMessage(e)];
    AwaitedOneMore(Messages(entries), EntryMessage(e));
  }

  function FirstTurn(c: ToolCall): seq<Entry>
  {
    var none: seq<Entry> := [];
    none + [UserEntry("p")] + [TheCall(c)] + [TheResult(c)]
  }

  function SecondTurn(): seq<Entry>
  {
    var none: seq<Entry> := [];
    none + [UserEntry("q")] + [AssistantEntry("x", "", [], Stop)]
  }

  lemma TurnsUntilCall(c: ToolCall, turn: nat)
    ensures EntriesBy(LogUntilCall(c), turn) == if turn == 1 then FirstTurn(c)[..2] else []
  {
    hide EntriesBy;
    var log: seq<Signed> := [];
    assert EntriesBy(log, turn) == [] by { NothingBy(turn); }
    OneMoreRecord(log, Signed(1, Message(UserEntry("p"))), turn);
    OneMoreRecord(log + [Signed(1, Message(UserEntry("p")))], Signed(1, Message(TheCall(c))), turn);
  }

  lemma SupersedingTurns(c: ToolCall, turn: nat)
    ensures EntriesBy(LogUntilCall(c), turn) == if turn == 1 then FirstTurn(c)[..2] else []
    ensures EntriesBy(LogMeanwhile(c), turn) == if turn == 1 then FirstTurn(c) else if turn == 2 then SecondTurn() else []
  {
    hide EntriesBy, LogUntilCall;
    TurnsUntilCall(c, turn);
    var log := LogUntilCall(c);
    OneMoreRecord(log, Signed(2, Message(UserEntry("q"))), turn);
    log := log + [Signed(2, Message(UserEntry("q")))];
    OneMoreRecord(log, Signed(1, Message(TheResult(c))), turn);
    log := log + [Signed(1, Message(TheResult(c)))];
    OneMoreRecord(log, Signed(2, Message(AssistantEntry("x", "", [], Stop))), turn);
  }

  lemma NothingBy(turn: nat)
    ensures EntriesBy([], turn) == [] && MessagesOf([]) == []
  {
  }

  lemma OneMoreMessage(log: seq<Signed>, ms: seq<Tagged>, w: nat, e: Entry)
    requires MessagesOf(log) == ms
    ensures MessagesOf(log + [Signed(w, Message(e))]) == ms + [Tagged(w, EntryMessage(e))]
  {
    hide EntryMessage;
    OneMoreRecord(log, Signed(w, Message(e)), w);
  }

  /** The file as the second turn finds it... */
  lemma MessagesUntilCall(c: ToolCall)
    ensures MessagesOf(LogUntilCall(c)) == [Tagged(1, EntryMessage(UserEntry("p"))), Tagged(1, EntryMessage(TheCall(c)))]
  {
    hide MessagesOf, EntryMessage;
    var log: seq<Signed> := [];
    NothingBy(0);
    OneMoreMessage(log, [], 1, UserEntry("p"));
    OneMoreMessage(log + [Signed(1, Message(UserEntry("p")))], [] + [Tagged(1, EntryMessage(UserEntry("p")))], 1, TheCall(c));
  }

  /** ... and at the end. */
  lemma MessagesMeanwhile(c: ToolCall)
    ensures MessagesOf(LogMeanwhile(c)) ==
      [Tagged(1, EntryMessage(UserEntry("p"))), Tagged(1, EntryMessage(TheCall(c))), Tagged(2, EntryMessage(UserEntry("q"))),
       Tagged(1, EntryMessage(TheResult(c))), Tagged(2, EntryMessage(AssistantEntry("x", "", [], Stop)))]
  {
    hide MessagesOf, EntryMessage, LogUntilCall;
    MessagesUntilCall(c);
    var log, ms := LogUntilCall(c), MessagesOf(LogUntilCall(c));
    OneMoreMessage(log, ms, 2, UserEntry("q"));
    log, ms := log + [Signed(2, Message(UserEntry("q")))], ms + [Tagged(2, EntryMessage(UserEntry("q")))];
    OneMoreMessage(log, ms, 1, TheResult(c));
    log, ms := log + [Signed(1, Message(TheResult(c)))], ms + [Tagged(1, EntryMessage(TheResult(c)))];
    OneMoreMessage(log, ms, 2, AssistantEntry("x", "", [], Stop));
  }

  /** Each of the two turns by itself is whole and in order; the first one still awaits its result when
      the second one loads the file. */
  lemma SupersedingAwaits(c: ToolCall)
    ensures Awaited(Messages(FirstTurn(c)[..2])) == Some([c.id])
    ensures Awaited(Messages(FirstTurn(c))) == Some([]) && Awaited(Messages(SecondTurn())) == Some([])
  {
    hide Awaited, Messages;
    var none: seq<Entry> := [];
    assert Awaited(Messages(none)) == Some([]) by { NothingAwaited(); }
    EntryAwaits(none, UserEntry("p"));
    EntryAwaits(none + [UserEntry("p")], TheCall(c));
    assert FirstTurn(c)[..2] == none + [UserEntry("p")] + [TheCall(c)];
    assert Ids([c]) == [c.id];
    assert FirstTurn(c) == FirstTurn(c)[..2] + [TheResult(c)] && [c.id][1..] == [];
    EntryAwaits(FirstTurn(c)[..2], TheResult(c));
    EntryAwaits(none, UserEntry("q"));
    EntryAwaits(none + [UserEntry("q")], AssistantEntry("x", "", [], Stop));
  }

  lemma NothingAwaited()
    ensures Awaited(Messages([])) == Some([])
  {
  }

  /** Pruning cuts no later than the newest prompt. */
  lemma CutByNewest(actions: seq<Action>, parse: string -> Option<Json>, k: nat)
    requires var ms := MessagesOf(LogOf([], actions));
      k < |ms| && IsUser(ms[k].message) && forall j :: k < j < |ms| ==> !IsUser(ms[j].message)
    ensures CutPoint(LoadAll(AfterActions(Disk([], map[]), actions).lines, parse), HISTORY_TURNS) <= k
  {
    hide LoadAll, AfterActions, LogOf, MessagesOf, CutPoint, LastUser, UserIndices;
    var raw, ms := LoadAll(AfterActions(Disk([], map[]), actions).lines, parse), MessagesOf(LogOf([], actions));
    LoadedIsWritten(actions, parse);
    forall j | k <= j < |ms| ensures IsUser(raw[j]) <==> IsUser(ms[j].message) {
      assert SameWiring(raw[j], Plain(ms)[j]);
    }
    LastUserUnique(raw, k);
    CutPointStops(raw, HISTORY_TURNS);
  }

  lemma SupersedingOrder(c: ToolCall)
    ensures TurnsInOrder(LogUntilCall(c)) && TurnsInOrder(LogMeanwhile(c)) && NoneUnanswered(LogMeanwhile(c), 0)
    ensures !NoneUnanswered(LogUntilCall(c), 0)
  {
    hide Awaited, Messages, Paired, EntriesBy, MessagesOf, LogUntilCall, LogMeanwhile, SecondTurn;
    SupersedingAwaits(c);
    MessagesUntilCall(c);
    MessagesMeanwhile(c);
    forall turn: nat
      ensures InOrder(EntriesBy(LogUntilCall(c), turn)) && InOrder(EntriesBy(LogMeanwhile(c), turn))
      ensures Awaited(Messages(EntriesBy(LogMeanwhile(c), turn))) == Some([])
    {
      SupersedingTurns(c, turn);
      NothingAwaited();
    }
    forall j | 0 <= j < |MessagesOf(LogMeanwhile(c))|
      ensures Paired(Messages(EntriesBy(LogMeanwhile(c), MessagesOf(LogMeanwhile(c))[j].turn)))
    {
      PairedIffNothingAwaited(Messages(EntriesBy(LogMeanwhile(c), MessagesOf(LogMeanwhile(c))[j].turn)));
    }
    SupersedingTurns(c, 1);
    PairedIffNothingAwaited(Messages(FirstTurn(c)[..2]));
    assert MessagesOf(LogUntilCall(c))[0].turn == 1;
  }

  lemma SupersedingCalls(c: ToolCall)
    ensures DistinctCalls(MessagesOf(LogUntilCall(c))) && DistinctCalls(MessagesOf(LogMeanwhile(c)))
  {
    hide MessagesOf, LogUntilCall, LogMeanwhile;
    MessagesUntilCall(c);
    MessagesMeanwhile(c);
  }

  /** No turn is cut and each is in order by itself, and yet the second turn loads an open call, and
      every turn after it a result that stands after another turn's prompt. */
  lemma SupersededTurnSpoils(c: ToolCall, st: Stamp, parse: string -> Option<Json>)
    ensures TurnsInOrder(LogOf([], SecondMeanwhile(c, st))) && NoneUnanswered(LogOf([], SecondMeanwhile(c, st)), 0)
    ensures !NextInOrder(AfterActions(Disk([], map[]), FirstUntilCall(c, st)).lines, parse)
    ensures !NextInOrder(AfterActions(Disk([], map[]), SecondMeanwhile(c, st)).lines, parse)
  {
    hide LoadAll, AfterActions, LogOf, MessagesOf, CutPoint, EntriesBy, DistinctCalls, Paired, Messages, InOrder;
    hide FirstUntilCall, SecondMeanwhile, LogUntilCall, LogMeanwhile, TurnsInOrder, NoneUnanswered;
    SupersedingLogs(c, st);
    SupersedingOrder(c);
    SupersedingCalls(c);
    MessagesUntilCall(c);
    MessagesMeanwhile(c);
    CutByNewest(FirstUntilCall(c, st), parse, 0);
    KeptIff(FirstUntilCall(c, st), parse);
    CutByNewest(SecondMeanwhile(c, st), parse, 2);
    KeptIff(SecondMeanwhile(c, st), parse);
    assert forall k: nat :: k <= 2 && Together(MessagesOf(LogMeanwhile(c)), k) ==> Follows(MessagesOf(LogMeanwhile(c)), k, 3);
  }
}
