/** A session of turns that do not overlap: what one turn journals, the next one loads. Turns that
    overlap in the file are the subject of `SharedJournal`. */
module Session {
  import opened Text
  import opened Json
  import opened Protocol
  import opened Entries
  import opened Payload
  import opened Turns
  import opened Prune
  import opened PruneBudget
  import opened PruneShape
  import opened PruneTwice
  import opened Inflight
  import opened Pairing
  import opened TurnLoop
  import opened RunTurn
  import opened Journal

  function Records(entries: seq<Entry>): (r: seq<Record>)
    ensures |r| == |entries|
  {
    if entries == [] then [] else Records(entries[..|entries| - 1]) + [Message(entries[|entries| - 1])]
  }

  lemma ReloadKeepsWiring(e: Entry, parse: string -> Option<Json>)
    ensures SameWiring(Reloaded(e, parse), EntryMessage(e))
    ensures Reloaded(e, parse).(toolCalls := None) == EntryMessage(e).(toolCalls := None)
  {
    match e
    case AssistantEntry(_, _, calls, _) => assert |ReloadedCalls(calls, parse)| == |calls|;
    case _ =>
  }

  lemma {:induction false} ReloadedAt(entries: seq<Entry>, parse: string -> Option<Json>)
    ensures |ReloadedAll(Records(entries), parse)| == |entries|
    ensures forall i :: 0 <= i < |entries| ==> ReloadedAll(Records(entries), parse)[i] == Reloaded(entries[i], parse)
  {
    hide Reloaded;
    if entries == [] {
    } else {
      ReloadedAt(entries[..|entries| - 1], parse);
      assert Records(entries)[..|entries| - 1] == Records(entries[..|entries| - 1]);
    }
  }

  /** A turn's entries, loaded back, are in order exactly when they were journaled in order. */
  lemma ReloadKeepsPairing(entries: seq<Entry>, parse: string -> Option<Json>)
    ensures Paired(ReloadedAll(Records(entries), parse)) <==> Paired(Messages(entries))
  {
    hide Paired, Reloaded, EntryMessage, SameWiring;
    var loaded := ReloadedAll(Records(entries), parse);
    ReloadedAt(entries, parse);
    forall i | 0 <= i < |entries| ensures SameWiring(loaded[i], Messages(entries)[i]) {
      ReloadKeepsWiring(entries[i], parse);
      MessagesAt(entries, i);
    }
    WiringDecidesPairing(loaded, Messages(entries));
  }

  /** The journal of a session with one more turn, its lines in one piece. Loading it back and pruning, the next turn's
      requests are in order exactly when this turn left no call unanswered. */
  lemma NextTurnFromJournal(before: seq<Option<Json>>, lines: seq<Option<Json>>, entries: seq<Entry>,
                                               parse: string -> Option<Json>)
    requires Paired(LoadAll(before, parse)) && OnePrompt(entries) && Prints(lines, Records(entries))
    ensures var raw := LoadAll(before + lines, parse);
      CutPoint(raw, HISTORY_TURNS) <= |raw|
      && (Paired(raw[CutPoint(raw, HISTORY_TURNS)..]) <==> Paired(Messages(entries)))
    ensures Paired(LoadAll(before + lines, parse)) <==> Paired(Messages(entries))
  {
    hide Paired, CutPoint, LoadAll, Prints;
    var turn := ReloadedAll(Records(entries), parse);
    JournalRoundTrip(before, lines, Records(entries), parse);
    ReloadKeepsPairing(entries, parse);
    ReloadedAt(entries, parse);
    NewestTurnDecides(LoadAll(before, parse), turn);
    PairedConcat(LoadAll(before, parse), turn);
  }

  /** The next turn starts from a history in order. */
  ghost predicate NextInOrder(file: seq<Option<Json>>, parse: string -> Option<Json>)
  {
    var raw := LoadAll(file, parse);
    CutPoint(raw, HISTORY_TURNS) <= |raw| && Paired(raw[CutPoint(raw, HISTORY_TURNS)..])
  }

  /** One turn over a session's file to which no other turn writes meanwhile, however its lines are
      printed: after a file in order the next
      turn starts in order exactly when the world let no batch of this turn be cut. */
  method TurnOverFile(w: World, configuredSteps: nat, configuredBudget: nat, before: seq<Option<Json>>,
                      parse: string -> Option<Json>, prompt: Str)
    returns (ok: bool, t: Turn)
    requires Sticky(w)
    ensures t.trail == TurnTrail(w, configuredSteps, configuredBudget)
    ensures Paired(LoadAll(before, parse)) && t.entries != [] ==>
      forall lines :: Prints(lines, Records(t.entries)) ==>
        (NextInOrder(before + lines, parse) <==> !WasCut(w, TurnTrail(w, configuredSteps, configuredBudget)))
  {
    hide Paired, LoadAll, Prints, Records, Messages, OnePrompt, CutPoint, WasCut, TurnTrail, Pruned, FaithfulRequests, Opening;
    var done, turn, _, _, _ := Run(w, configuredSteps, configuredBudget, LoadAll(before, parse), prompt);
    ok, t := done, turn;
    if Paired(LoadAll(before, parse)) && t.entries != [] {
      forall lines | Prints(lines, Records(t.entries))
        ensures NextInOrder(before + lines, parse) <==> !WasCut(w, t.trail)
      {
        NextTurnFromJournal(before, lines, t.entries, parse);
      }
    }
  }

  // ---------- a whole session ----------

  /** The lines and the entries of successive turns. */
  datatype Logged = Logged(lines: seq<Option<Json>>, entries: seq<Entry>)

  function AllLines(turns: seq<Logged>): seq<Option<Json>>
  {
    if turns == [] then [] else AllLines(turns[..|turns| - 1]) + turns[|turns| - 1].lines
  }

  /** The messages of each turn as they are loaded back. */
  function Loaded(turns: seq<Logged>, parse: string -> Option<Json>): (r: seq<seq<ChatMessage>>)
    ensures |r| == |turns|
  {
    if turns == [] then []
    else Loaded(turns[..|turns| - 1], parse) + [ReloadedAll(Records(turns[|turns| - 1].entries), parse)]
  }

  lemma {:induction false} LoadedAt(turns: seq<Logged>, parse: string -> Option<Json>, k: nat)
    requires k < |turns|
    ensures Loaded(turns, parse)[k] == ReloadedAll(Records(turns[k].entries), parse)
  {
    if k < |turns| - 1 { LoadedAt(turns[..|turns| - 1], parse, k); }
  }

  /** Each turn was printed to its lines and opens with its prompt. */
  ghost predicate Kept(turns: seq<Logged>)
  {
    forall k :: 0 <= k < |turns| ==> OnePrompt(turns[k].entries) && Prints(turns[k].lines, Records(turns[k].entries))
  }

  /** The file loads to the turns one after another. */
  lemma {:induction false} FileIsItsTurns(turns: seq<Logged>, parse: string -> Option<Json>)
    requires Kept(turns)
    ensures LoadAll(AllLines(turns), parse) == Flatten(Loaded(turns, parse))
  {
    hide OnePrompt, Prints, LoadAll, Records, ReloadedAll;
    if turns == [] {
      NothingLoaded(parse);
    } else {
      var front, last := turns[..|turns| - 1], turns[|turns| - 1];
      FileIsItsTurns(front, parse);
      JournalRoundTrip(AllLines(front), last.lines, Records(last.entries), parse);
      var all := Loaded(turns, parse);
      assert all[..|all| - 1] == Loaded(front, parse);
    }
  }

  lemma NothingLoaded(parse: string -> Option<Json>)
    ensures LoadAll([], parse) == []
  {
  }

  /** A turn as loaded: the user's prompt, then messages of others. */
  ghost predicate IsTurn(ms: seq<ChatMessage>)
  {
    ms != [] && forall i :: 0 <= i < |ms| ==> (IsUser(ms[i]) <==> i == 0)
  }

  lemma {:induction false} LoadedTurn(turns: seq<Logged>, parse: string -> Option<Json>, k: nat)
    requires Kept(turns) && k < |turns|
    ensures IsTurn(Loaded(turns, parse)[k])
    ensures Paired(Loaded(turns, parse)[k]) <==> Paired(Messages(turns[k].entries))
  {
    hide Paired, Prints;
    LoadedAt(turns, parse, k);
    ReloadKeepsPairing(turns[k].entries, parse);
    ReloadedAt(turns[k].entries, parse);
  }

  /** A history cut at a turn start is a number of whole turns. */
  lemma {:induction false} CutIsWholeTurns(ts: seq<seq<ChatMessage>>, c: nat) returns (m: nat)
    requires forall k :: 0 <= k < |ts| ==> IsTurn(ts[k])
    requires c <= |Flatten(ts)| && (c == 0 || (c < |Flatten(ts)| && IsUser(Flatten(ts)[c])))
    ensures m <= |ts| && Flatten(ts)[c..] == Flatten(ts[m..])
    ensures ts != [] ==> m < |ts|
  {
    if c == 0 {
      m := 0;
      assert ts[0..] == ts && Flatten(ts)[0..] == Flatten(ts);
    } else {
      var front, last := ts[..|ts| - 1], ts[|ts| - 1];
      if c >= |Flatten(front)| {
        assert Flatten(ts)[c] == last[c - |Flatten(front)|];
        m := |ts| - 1;
        assert ts[m..] == [last] && ts[m..][..0] == ts[..0];
      } else {
        assert Flatten(ts)[c] == Flatten(front)[c];
        m := CutIsWholeTurns(front, c);
        assert ts[m..][..|ts[m..]| - 1] == front[m..];
      }
    }
  }

  /** A list and a turn after it are in order exactly when both are. */
  lemma TurnAfter(before: seq<ChatMessage>, turn: seq<ChatMessage>)
    requires IsTurn(turn)
    ensures Paired(before + turn) <==> Paired(before) && Paired(turn)
  {
    hide Paired;
    if Paired(before + turn) {
      assert IsUser((before + turn)[|before|]);
      PairedSuffix(before + turn, |before|);
      assert (before + turn)[..|before|] == before && (before + turn)[|before|..] == turn;
    } else if Paired(before) {
      PairedConcat(before, turn);
    }
  }

  /** Turns one after another are in order exactly when each of them is. */
  lemma {:induction false} TurnsPairedIff(ts: seq<seq<ChatMessage>>)
    requires forall k :: 0 <= k < |ts| ==> IsTurn(ts[k])
    ensures Paired(Flatten(ts)) <==> forall k :: 0 <= k < |ts| ==> Paired(ts[k])
  {
    hide Paired, IsTurn;
    if ts == [] {
      NothingPaired();
    } else {
      var front, last := ts[..|ts| - 1], ts[|ts| - 1];
      TurnsPairedIff(front);
      TurnAfter(Flatten(front), last);
      assert forall k :: 0 <= k < |front| ==> front[k] == ts[k];
    }
  }

  /** After any turns of a session, one after another, what the next one keeps of the history is the last of them,
      whole, and it is in order exactly when each of these left no call unanswered. A turn that was
      cut spoils every later turn until it is pruned away, and none after that. */
  lemma KeptTurnsDecide(turns: seq<Logged>, parse: string -> Option<Json>) returns (m: nat)
    requires Kept(turns)
    ensures m <= |turns| && (turns != [] ==> m < |turns|)
    ensures var raw := LoadAll(AllLines(turns), parse);
      CutPoint(raw, HISTORY_TURNS) <= |raw| && raw[CutPoint(raw, HISTORY_TURNS)..] == Flatten(Loaded(turns, parse)[m..])
    ensures var raw := LoadAll(AllLines(turns), parse);
      Paired(raw[CutPoint(raw, HISTORY_TURNS)..]) <==> forall k :: m <= k < |turns| ==> Paired(Messages(turns[k].entries))
  {
    hide *;
    var ts := Loaded(turns, parse);
    FileIsItsTurns(turns, parse);
    forall k | 0 <= k < |ts| ensures IsTurn(ts[k]) && (Paired(ts[k]) <==> Paired(Messages(turns[k].entries))) {
      LoadedTurn(turns, parse, k);
    }
    KeepsSome();
    CutAtUser(Flatten(ts));
    m := CutIsWholeTurns(ts, CutPoint(Flatten(ts), HISTORY_TURNS));
    var kept := ts[m..];
    forall k | 0 <= k < |kept| ensures kept[k] == ts[m + k] && IsTurn(kept[k]) {
      assert IsTurn(ts[m + k]);
    }
    TurnsPairedIff(kept);
    assert forall k :: m <= k < |turns| ==> ts[k] == kept[k - m];
  }

  lemma KeepsSome()
    ensures HISTORY_TURNS >= 1
  {
  }

  lemma CutAtUser(raw: seq<ChatMessage>)
    ensures var c := CutPoint(raw, HISTORY_TURNS); c <= |raw| && (c == 0 || (c < |raw| && IsUser(raw[c])))
  {
    hide CutPoint, Pruned;
    PruneKeepsShape(raw, HISTORY_TURNS);
  }

  /** As long as turns follow one another and none left a call unanswered, every later turn starts
      from a history that is in order, so all its requests are. */
  lemma SessionStaysPaired(turns: seq<Logged>, parse: string -> Option<Json>)
    requires Kept(turns) && forall k :: 0 <= k < |turns| ==> Paired(Messages(turns[k].entries))
    ensures Paired(LoadAll(AllLines(turns), parse))
    ensures var raw := LoadAll(AllLines(turns), parse);
      CutPoint(raw, HISTORY_TURNS) <= |raw| && Paired(raw[CutPoint(raw, HISTORY_TURNS)..])
  {
    hide *;
    var m := KeptTurnsDecide(turns, parse);
    var ts := Loaded(turns, parse);
    FileIsItsTurns(turns, parse);
    forall k | 0 <= k < |ts| ensures IsTurn(ts[k]) && Paired(ts[k]) { LoadedTurn(turns, parse, k); }
    TurnsPairedIff(ts);
  }

  // ---------- loaded arguments are compact ----------

  /** Of the calls in a content array, those whose arguments are a bare string carry text that is
      not JSON, or not shorter than its document. Other arguments are printed by the loader. */
  ghost predicate BareArgumentsCompact(items: Items, parse: string -> Option<Json>)
  {
    match items
    case NoItem => true
    case Item(c, rest) =>
      (GetText(c, "type") == Some("toolCall") && GetText(c, "arguments").Some? ==>
        Compact(Arguments(GetText(c, "arguments").value, parse(GetText(c, "arguments").value))))
      && BareArgumentsCompact(rest, parse)
  }

  function LineContent(line: Option<Json>): Items
  {
    if line.Some? && Get(line.value, "message").Some? then AsItems(Get(Get(line.value, "message").value, "content")) else NoItem
  }

  ghost predicate CallsCompact(calls: seq<ToolCall>)
  {
    forall k :: 0 <= k < |calls| ==> Compact(calls[k].arguments)
  }

  lemma CompactFirst(c: ToolCall, calls: seq<ToolCall>)
    ensures CallsCompact([c] + calls) <==> Compact(c.arguments) && CallsCompact(calls)
  {
    var all := [c] + calls;
    assert all[0] == c && forall k :: 0 <= k < |calls| ==> all[k + 1] == calls[k];
  }

  lemma LoadedCallCompact(c: Json, parse: string -> Option<Json>)
    ensures Compact(LoadedCall(c, parse).arguments) <==>
      (GetText(c, "arguments").Some? ==>
        Compact(Arguments(GetText(c, "arguments").value, parse(GetText(c, "arguments").value))))
  {
    hide Get;
  }

  lemma {:induction false} LoadedCallsCompact(items: Items, parse: string -> Option<Json>)
    ensures BareArgumentsCompact(items, parse) <==> CallsCompact(LoadedCalls(items, parse))
  {
    hide GetText, LoadedCall, Compact, CallsCompact;
    match items
    case NoItem => NoCallsCompact();
    case Item(c, rest) =>
      LoadedCallsCompact(rest, parse);
      LoadedCallCompact(c, parse);
      CompactFirst(LoadedCall(c, parse), LoadedCalls(rest, parse));
      assert [] + LoadedCalls(rest, parse) == LoadedCalls(rest, parse);
  }

  lemma NoCallsCompact()
    ensures CallsCompact([])
  {
  }

  /** Any line, by whatever writer, loads to a message whose arguments are compact exactly when its
      bare-string arguments are. */
  lemma LoadedIsCompact(line: Option<Json>, parse: string -> Option<Json>)
    ensures BareArgumentsCompact(LineContent(line), parse) && LoadLine(line, parse).Some? ==>
      CompactMessage(LoadLine(line, parse).value)
    ensures LoadLine(line, parse).Some? && LoadLine(line, parse).value.role == Assistant ==>
      (CompactMessage(LoadLine(line, parse).value) <==> BareArgumentsCompact(LineContent(line), parse))
  {
    hide GetText, Get;
    LoadedCallsCompact(LineContent(line), parse);
  }

  ghost predicate AllCompact(lines: seq<Option<Json>>, parse: string -> Option<Json>)
  {
    forall k :: 0 <= k < |lines| ==> BareArgumentsCompact(LineContent(lines[k]), parse)
  }

  lemma {:induction false} LoadedAllCompact(lines: seq<Option<Json>>, parse: string -> Option<Json>)
    requires AllCompact(lines, parse)
    ensures CompactMessages(LoadAll(lines, parse))
  {
    hide LoadLine, CompactMessage;
    if lines == [] {
    } else {
      LoadedAllCompact(lines[..|lines| - 1], parse);
      LoadedIsCompact(lines[|lines| - 1], parse);
    }
  }

  /** From the file to the request: what is loaded and pruned fits the budget, or is one turn at
      its floor, and pruning it again changes nothing. */
  lemma LoadedHistoryFits(lines: seq<Option<Json>>, parse: string -> Option<Json>)
    requires AllCompact(lines, parse)
    ensures var raw := LoadAll(lines, parse);
      Users(raw) > 0 ==>
        TotalChars(Pruned(raw, HISTORY_TURNS)) <= 48_000
        || (Users(Pruned(raw, HISTORY_TURNS)) == 1 && AtFloor(Pruned(raw, HISTORY_TURNS)))
    ensures var raw := LoadAll(lines, parse);
      Pruned(Pruned(raw, HISTORY_TURNS), HISTORY_TURNS) == Pruned(raw, HISTORY_TURNS)
  {
    hide *;
    KeepsSome();
    LoadedAllCompact(lines, parse);
    var raw := LoadAll(lines, parse);
    if Users(raw) > 0 { PruneMeetsBudget(raw, HISTORY_TURNS); }
    PruneIdempotent(raw, HISTORY_TURNS);
  }

  /** An entry of this writer comes back compact exactly when its bare-string arguments are. */
  lemma ReloadedIsCompact(e: Entry, parse: string -> Option<Json>)
    ensures CompactMessage(Reloaded(e, parse)) <==>
      (e.AssistantEntry? ==>
        forall k :: 0 <= k < |e.calls| ==>
          (StoredArguments(e.calls[k].arguments).String? ==>
            Compact(Arguments(StoredArguments(e.calls[k].arguments).s, parse(StoredArguments(e.calls[k].arguments).s)))))
  {
    if e.AssistantEntry? {
      var calls := ReloadedCalls(e.calls, parse);
      forall k | 0 <= k < |e.calls| ensures Compact(calls[k].arguments) <==>
        (StoredArguments(e.calls[k].arguments).String? ==>
          Compact(Arguments(StoredArguments(e.calls[k].arguments).s, parse(StoredArguments(e.calls[k].arguments).s))))
      {
        assert calls[k] == ReloadedCall(e.calls[k], parse);
      }
    }
  }
}
