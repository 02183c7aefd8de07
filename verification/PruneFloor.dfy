/** What pruning may do to a single message, and how far below the floor it can go. */
module PruneFloor {
  import opened Text
  import opened Json
  import opened Protocol
  import opened Payload
  import opened Turns
  import opened Prune
  import opened PruneBudget
  import opened PruneShape

  /** The content is verbatim, or it is a tool result cut to no less than the floor. */
  predicate ContentReduced(m: ChatMessage, r: ChatMessage)
  {
    r.content == m.content ||
    (m.role == Tool && m.content.Some? && m.content.value.Text? && r.content.Some? && r.content.value.Text?
     && HARD_TOOL_FLOOR <= ContentChars(r) < ContentChars(m))
  }

  /** The reasoning and the calls are folded once; in the newest turn they may be verbatim. */
  predicate Reduced(m: ChatMessage, r: ChatMessage, newest: bool)
  {
    r.role == m.role && r.toolCallId == m.toolCallId && ContentReduced(m, r)
    && (r.reasoning == FoldReasoning(m, ARG_STRING_KEEP).reasoning || (newest && r.reasoning == m.reasoning))
    && (r.toolCalls == FoldArguments(m, ARG_STRING_KEEP).toolCalls || (newest && r.toolCalls == m.toolCalls))
  }

  lemma FoldMessageReduces(m: ChatMessage, newest: bool)
    ensures Reduced(m, FoldMessage(m, newest), newest)
  {
    hide FoldCalls, ElisionNote, Elide;
  }

  lemma ShrinkMessageReduces(m: ChatMessage, r: ChatMessage, newest: bool, kind: PayloadKind)
    requires Reduced(m, r, newest) && PayloadSize(r, kind) > FLOOR
    ensures Reduced(m, ShrinkMessage(r, kind), newest)
  {
    hide FoldCalls, ElisionNote, Elide;
    match kind
    case OfResult =>
    case OfArguments => FoldArgumentsTwice(m, ARG_STRING_KEEP);
    case OfReasoning => FoldReasoningTwice(m, ARG_STRING_KEEP);
  }

  /** The newest turn starts at `last`. */
  ghost predicate AllReduced(ms: seq<ChatMessage>, rs: seq<ChatMessage>, last: nat)
  {
    |rs| == |ms| && forall i :: 0 <= i < |ms| ==> Reduced(ms[i], rs[i], i >= last)
  }

  lemma ShrinkStepReduces(ms: seq<ChatMessage>, rs: seq<ChatMessage>, last: nat)
    requires AllReduced(ms, rs, last)
    ensures AllReduced(ms, ShrinkStep(rs), last)
  {
    hide Reduced, ShrinkMessage, Worst, PayloadSize;
    PickIsLargest(rs);
    if Pick(rs).Some? {
      var c := Pick(rs).value;
      ShrinkMessageReduces(ms[c.index], rs[c.index], c.index >= last, c.kind);
    }
  }

  lemma {:induction false} ShrinkToFitReduces(ms: seq<ChatMessage>, rs: seq<ChatMessage>, last: nat)
    requires AllReduced(ms, rs, last)
    ensures AllReduced(ms, ShrinkToFit(rs), last)
    decreases TotalChars(rs)
  {
    hide AllReduced, ShrinkStep, Shrinks;
    ShrinkStepReduces(ms, rs, last);
    if TotalChars(rs) > MAX_TOTAL_CHARS && Shrinks(rs) && TotalChars(ShrinkStep(rs)) < TotalChars(rs) {
      ShrinkToFitReduces(ms, ShrinkStep(rs), last);
    }
  }

  lemma FoldedReduces(raw: seq<ChatMessage>, c: nat)
    requires c <= LastUser(raw) <= |raw|
    ensures |Folded(raw)| == |raw| && AllReduced(raw[c..], Folded(raw)[c..], LastUser(raw) - c)
  {
    hide FoldMessage, Reduced, FoldAll, LastUser;
    FoldAllAt(raw, LastUser(raw));
    forall i | 0 <= i < |raw| - c ensures Reduced(raw[c..][i], Folded(raw)[c..][i], i >= LastUser(raw) - c) {
      FoldMessageReduces(raw[c + i], c + i >= LastUser(raw));
    }
  }

  /** Message by message, a pruned history is the kept part of the input with tool results cut to
      no less than 400 characters and with reasoning and arguments folded once; only in the newest
      turn may these be verbatim. */
  lemma PrunedMessagesReduced(raw: seq<ChatMessage>, maxTurns: nat)
    requires maxTurns >= 1 && Users(raw) > 0
    ensures CutPoint(raw, maxTurns) <= LastUser(raw) <= |raw|
    ensures AllReduced(raw[CutPoint(raw, maxTurns)..], Pruned(raw, maxTurns), LastUser(raw) - CutPoint(raw, maxTurns))
  {
    hide *;
    var c := CutPoint(raw, maxTurns);
    CutPointStops(raw, maxTurns);
    PrunedFromCut(raw, maxTurns);
    FoldedReduces(raw, c);
    ShrinkToFitReduces(raw[c..], Folded(raw)[c..], LastUser(raw) - c);
  }

  // ---------- the floor ----------

  /** A payload that was at least the floor is at least the floor. */
  predicate FloorKept(before: nat, after: nat) { before >= 400 ==> after >= 400 }

  /** The floor of 400 characters is kept by the content of every message. By the reasoning of an
      earlier turn it is kept exactly when there is nothing to fold: a longer one becomes a marker. */
  lemma FloorOfPruned(raw: seq<ChatMessage>, maxTurns: nat, i: nat)
    requires maxTurns >= 1 && Users(raw) > 0
    requires CutPoint(raw, maxTurns) <= i < |raw|
    ensures var c := CutPoint(raw, maxTurns);
      |Pruned(raw, maxTurns)| == |raw| - c
      && FloorKept(ContentChars(raw[i]), ContentChars(Pruned(raw, maxTurns)[i - c]))
    ensures var c := CutPoint(raw, maxTurns);
      i < LastUser(raw) ==>
        (FloorKept(ReasoningChars(raw[i]), ReasoningChars(Pruned(raw, maxTurns)[i - c])) <==>
         ReasoningChars(raw[i]) <= ARG_STRING_KEEP)
  {
    hide Pruned, CutPoint, LastUser, FoldArguments;
    PrunedMessagesReduced(raw, maxTurns);
    var c := CutPoint(raw, maxTurns);
    var r := Pruned(raw, maxTurns)[i - c];
    assert raw[c..][i - c] == raw[i];
    assert Reduced(raw[i], r, i - c >= LastUser(raw) - c);
    if raw[i].reasoning.Some? { UsizeDigits(|raw[i].reasoning.value|); }
  }

  // ---------- what the loop folds in the newest turn ----------

  predicate Picks(ms: seq<ChatMessage>, i: nat, kind: PayloadKind)
  {
    Pick(ms).Some? && Pick(ms).value.index == i && Pick(ms).value.kind == kind
  }

  /** The history when this payload has become the largest one left: reduced pass by pass, whatever
      its total. */
  ghost function WhenLargest(ms: seq<ChatMessage>, i: nat, kind: PayloadKind): (r: seq<ChatMessage>)
    requires CompactMessages(ms)
    ensures TotalChars(r) <= TotalChars(ms)
    decreases TotalChars(ms)
  {
    if AtFloor(ms) || Picks(ms, i, kind) then ms
    else
      ShrinkStepLowers(ms);
      WhenLargest(ShrinkStep(ms), i, kind)
  }

  /** The same calls, or the same reasoning. */
  predicate SamePart(a: ChatMessage, b: ChatMessage, kind: PayloadKind)
  {
    match kind
    case OfArguments => a.toolCalls == b.toolCalls
    case OfReasoning => a.reasoning == b.reasoning
    case OfResult => a.content == b.content
  }

  lemma SamePartFolds(a: ChatMessage, b: ChatMessage, kind: PayloadKind)
    requires SamePart(a, b, kind) && kind != OfResult
    ensures PayloadSize(a, kind) == PayloadSize(b, kind)
    ensures SamePart(ShrinkMessage(a, kind), ShrinkMessage(b, kind), kind)
  {
  }

  lemma OtherPass(ms: seq<ChatMessage>, i: nat, kind: PayloadKind)
    requires i < |ms| && kind != OfResult && !Picks(ms, i, kind)
    ensures SamePart(ShrinkStep(ms)[i], ms[i], kind)
  {
    hide Pick, FoldCalls, Elide, ElisionNote;
  }

  lemma OwnPass(ms: seq<ChatMessage>, i: nat, kind: PayloadKind)
    requires i < |ms| && kind != OfResult && Picks(ms, i, kind) && CompactMessages(ms)
    ensures ShrinkStep(ms)[i] == ShrinkMessage(ms[i], kind) && PayloadSize(ShrinkStep(ms)[i], kind) <= FLOOR
  {
    hide Pick, FoldCalls, LongestOfCalls;
    match kind
    case OfArguments => if ms[i].toolCalls.Some? { FoldCallsShortens(ms[i].toolCalls.value, ARG_STRING_KEEP); }
    case OfReasoning => FoldReasoningTwice(ms[i], ARG_STRING_KEEP);
  }

  /** A payload at the floor is left alone. */
  lemma {:induction false} SmallStays(ms: seq<ChatMessage>, i: nat, kind: PayloadKind)
    requires i < |ms| && kind != OfResult && PayloadSize(ms[i], kind) <= FLOOR
    ensures SamePart(ShrinkToFit(ms)[i], ms[i], kind)
    decreases TotalChars(ms)
  {
    hide ShrinkStep, Shrinks, Pick, PayloadSize;
    PickIsLargest(ms);
    OtherPass(ms, i, kind);
    SamePartFolds(ShrinkStep(ms)[i], ms[i], kind);
    if TotalChars(ms) > MAX_TOTAL_CHARS && Shrinks(ms) && TotalChars(ShrinkStep(ms)) < TotalChars(ms) {
      SmallStays(ShrinkStep(ms), i, kind);
    }
  }

  /** Longer arguments and reasoning are folded exactly when the history is still over the budget by
      the time they are the largest payload left. */
  lemma {:induction false} FoldedIff(ms: seq<ChatMessage>, i: nat, kind: PayloadKind)
    requires i < |ms| && kind != OfResult && PayloadSize(ms[i], kind) > FLOOR && CompactMessages(ms)
    ensures SamePart(ShrinkToFit(ms)[i],
      if TotalChars(WhenLargest(ms, i, kind)) > MAX_TOTAL_CHARS then ShrinkMessage(ms[i], kind) else ms[i], kind)
    decreases TotalChars(ms)
  {
    hide ShrinkStep, Shrinks, Pick, PayloadSize, ShrinkMessage, CompactMessage;
    if TotalChars(ms) > MAX_TOTAL_CHARS {
      assert !AtFloor(ms);
      ShrinkStepLowers(ms);
      if Picks(ms, i, kind) {
        OwnPass(ms, i, kind);
        SmallStays(ShrinkStep(ms), i, kind);
      } else {
        OtherPass(ms, i, kind);
        SamePartFolds(ShrinkStep(ms)[i], ms[i], kind);
        FoldedIff(ShrinkStep(ms), i, kind);
      }
    }
  }

  /** Whether pruning folds the arguments, or the reasoning, of a kept message: always in an earlier
      turn; in the newest one if they are over the floor and the kept turns are still over the budget
      by the time they are the largest payload left. */
  ghost predicate Folds(raw: seq<ChatMessage>, maxTurns: nat, i: nat, kind: PayloadKind)
    requires maxTurns >= 1 && Users(raw) > 0 && CompactMessages(raw)
    requires CutPoint(raw, maxTurns) <= i < |raw|
  {
    i < LastUser(raw) ||
    (PayloadSize(raw[i], kind) > FLOOR
     && (KeptIsCompact(raw, maxTurns);
         TotalChars(WhenLargest(Folded(raw)[CutPoint(raw, maxTurns)..], i - CutPoint(raw, maxTurns), kind)) > MAX_TOTAL_CHARS))
  }

  lemma KeptIsCompact(raw: seq<ChatMessage>, maxTurns: nat)
    requires maxTurns >= 1 && Users(raw) > 0 && CompactMessages(raw)
    ensures CutPoint(raw, maxTurns) <= |Folded(raw)| == |raw| && CompactMessages(Folded(raw)[CutPoint(raw, maxTurns)..])
  {
    hide CutPoint, FoldAll, LastUser;
    PrunedFromCut(raw, maxTurns);
    FoldedCompact(raw);
    FoldAllAt(raw, LastUser(raw));
  }

  lemma NewestPart(m: ChatMessage, kind: PayloadKind)
    requires kind != OfResult
    ensures SamePart(FoldMessage(m, true), m, kind)
    ensures PayloadSize(FoldMessage(m, true), kind) == PayloadSize(m, kind)
    ensures SamePart(ShrinkMessage(FoldMessage(m, true), kind), ShrinkMessage(m, kind), kind)
  {
    hide Elide, FoldCalls;
  }

  lemma EarlierPart(m: ChatMessage, r: ChatMessage, kind: PayloadKind)
    requires Reduced(m, r, false) && kind != OfResult
    ensures SamePart(r, ShrinkMessage(m, kind), kind)
  {
    hide FoldCalls, Elide;
  }

  lemma FitPart(ms: seq<ChatMessage>, j: nat, m: ChatMessage, kind: PayloadKind)
    requires j < |ms| && ms[j] == FoldMessage(m, true) && CompactMessages(ms) && kind != OfResult
    ensures SamePart(ShrinkToFit(ms)[j],
      if PayloadSize(m, kind) > FLOOR && TotalChars(WhenLargest(ms, j, kind)) > MAX_TOTAL_CHARS then ShrinkMessage(m, kind) else m, kind)
  {
    hide FoldMessage, ShrinkToFit, WhenLargest, CompactMessages, PayloadSize, ShrinkMessage, TotalChars;
    NewestPart(m, kind);
    if PayloadSize(m, kind) > FLOOR { FoldedIff(ms, j, kind); } else { SmallStays(ms, j, kind); }
  }

  lemma FoldedMessage(raw: seq<ChatMessage>, c: nat, i: nat)
    requires c <= i < |raw|
    ensures |Folded(raw)| == |raw| && Folded(raw)[c..][i - c] == FoldMessage(raw[i], i >= LastUser(raw))
  {
    hide FoldMessage, LastUser;
    FoldAllAt(raw, LastUser(raw));
  }

  /** What pruning does to the arguments and the reasoning of any kept message. */
  lemma PrunedPart(raw: seq<ChatMessage>, maxTurns: nat, i: nat, kind: PayloadKind)
    requires maxTurns >= 1 && Users(raw) > 0 && CompactMessages(raw) && kind != OfResult
    requires CutPoint(raw, maxTurns) <= i < |raw|
    ensures var c := CutPoint(raw, maxTurns);
      |Pruned(raw, maxTurns)| == |raw| - c
      && SamePart(Pruned(raw, maxTurns)[i - c], if Folds(raw, maxTurns, i, kind) then ShrinkMessage(raw[i], kind) else raw[i], kind)
  {
    hide CutPoint, Folded, LastUser, ShrinkToFit, Pruned, WhenLargest, CompactMessages, PayloadSize, FoldMessage, Reduced, ShrinkMessage;
    hide SamePart, TotalChars;
    var c := CutPoint(raw, maxTurns);
    PrunedMessagesReduced(raw, maxTurns);
    KeptIsCompact(raw, maxTurns);
    PrunedFromCut(raw, maxTurns);
    FoldedMessage(raw, c, i);
    if i < LastUser(raw) {
      assert raw[c..][i - c] == raw[i];
      EarlierPart(raw[i], Pruned(raw, maxTurns)[i - c], kind);
    } else {
      FitPart(Folded(raw)[c..], i - c, raw[i], kind);
    }
  }

  /** A string value that is folded becomes a marker. */
  lemma FoldedLeaf(c: ToolCall, l: nat)
    requires c.arguments.value.Some? && l < |Leaves(c.arguments.value.value)|
    ensures var r := FoldCall(c, ARG_STRING_KEEP).arguments;
      r.value.Some? && |Leaves(r.value.value)| == |Leaves(c.arguments.value.value)|
      && (FloorKept(|Leaves(c.arguments.value.value)[l]|, |Leaves(r.value.value)[l]|) <==>
          |c.arguments.text| <= ARG_STRING_KEEP || |Leaves(c.arguments.value.value)[l]| <= ARG_STRING_KEEP)
  {
    hide Leaves, Shrink, Hit, Render;
    var v := c.arguments.value.value;
    ShrinkKeepsTree(v, ARG_STRING_KEEP);
    HitIffTooLong(v, ARG_STRING_KEEP);
    UsizeDigits(|Leaves(v)[l]|);
  }

  /** The floor, for what is folded outright: reasoning of more than 400 characters falls below it
      exactly when it is folded, and so does each string of more than 400 characters in a call whose
      arguments are longer than that. */
  lemma FloorOfFolds(raw: seq<ChatMessage>, maxTurns: nat, i: nat)
    requires maxTurns >= 1 && Users(raw) > 0 && CompactMessages(raw)
    requires CutPoint(raw, maxTurns) <= i < |raw|
    ensures var c := CutPoint(raw, maxTurns);
      |Pruned(raw, maxTurns)| == |raw| - c
      && (FloorKept(ReasoningChars(raw[i]), ReasoningChars(Pruned(raw, maxTurns)[i - c])) <==>
          !Folds(raw, maxTurns, i, OfReasoning) || ReasoningChars(raw[i]) <= ARG_STRING_KEEP)
    ensures var r := Pruned(raw, maxTurns)[i - CutPoint(raw, maxTurns)];
      raw[i].toolCalls.Some? ==>
        r.toolCalls.Some? && |r.toolCalls.value| == |raw[i].toolCalls.value|
        && forall k :: 0 <= k < |raw[i].toolCalls.value| ==>
             StringsKept(raw[i].toolCalls.value[k], r.toolCalls.value[k], Folds(raw, maxTurns, i, OfArguments))
  {
    hide Pruned, CutPoint, LastUser, Folds, FoldCall, StringsKept;
    PrunedPart(raw, maxTurns, i, OfReasoning);
    PrunedPart(raw, maxTurns, i, OfArguments);
    if raw[i].reasoning.Some? { UsizeDigits(|raw[i].reasoning.value|); }
    if raw[i].toolCalls.Some? {
      var calls := raw[i].toolCalls.value;
      forall k | 0 <= k < |calls|
        ensures StringsKept(calls[k], if Folds(raw, maxTurns, i, OfArguments) then FoldCall(calls[k], ARG_STRING_KEEP) else calls[k],
                            Folds(raw, maxTurns, i, OfArguments))
      {
        CallStrings(calls[k], Folds(raw, maxTurns, i, OfArguments));
      }
    }
  }

  /** Of a call's string values those fall below the floor that are long, in long arguments, and folded. */
  ghost predicate StringsKept(c: ToolCall, r: ToolCall, folds: bool)
  {
    c.arguments.value.Some? ==>
      r.arguments.value.Some? && |Leaves(r.arguments.value.value)| == |Leaves(c.arguments.value.value)|
      && forall l :: 0 <= l < |Leaves(c.arguments.value.value)| ==>
           (FloorKept(|Leaves(c.arguments.value.value)[l]|, |Leaves(r.arguments.value.value)[l]|) <==>
            !folds || |c.arguments.text| <= ARG_STRING_KEEP || |Leaves(c.arguments.value.value)[l]| <= ARG_STRING_KEEP)
  }

  lemma CallStrings(c: ToolCall, folds: bool)
    ensures StringsKept(c, if folds then FoldCall(c, ARG_STRING_KEEP) else c, folds)
  {
    hide FoldCall, Leaves;
    if c.arguments.value.Some? {
      ShrinkLeavesCount(c);
      forall l | 0 <= l < |Leaves(c.arguments.value.value)| ensures
        FloorKept(|Leaves(c.arguments.value.value)[l]|, |Leaves(FoldCall(c, ARG_STRING_KEEP).arguments.value.value)[l]|) <==>
        |c.arguments.text| <= ARG_STRING_KEEP || |Leaves(c.arguments.value.value)[l]| <= ARG_STRING_KEEP
      {
        FoldedLeaf(c, l);
      }
    }
  }

  lemma ShrinkLeavesCount(c: ToolCall)
    requires c.arguments.value.Some?
    ensures var r := FoldCall(c, ARG_STRING_KEEP).arguments;
      r.value.Some? && |Leaves(r.value.value)| == |Leaves(c.arguments.value.value)|
  {
    hide Leaves, Shrink, Hit, Render;
    ShrinkKeepsTree(c.arguments.value.value, ARG_STRING_KEEP);
  }

  // ---------- the defensive exit ----------

  /** A turn of one call, whose arguments grow when they are folded, and its result. */
  function GrowingTurn(id: Str, name: Str, s: Str, t: Str): seq<ChatMessage>
  {
    var call := ToolCall(id, name, Growing(|Escape(s)| + MAX_TOTAL_CHARS, s));
    [UserMessage(""), AssistantMessage("").(toolCalls := Some([call])), ToolResult(id, t)]
  }

  lemma GrowingPick(id: Str, name: Str, s: Str, t: Str)
    requires FLOOR < |t| < |s|
    ensures var ms := GrowingTurn(id, name, s, t);
      Picks(ms, 1, OfArguments) && PayloadSize(ms[2], OfResult) == |t|
      && !AtFloor(ms) && Shrinks(ms)
      && TotalChars(ms) > MAX_TOTAL_CHARS && TotalChars(ShrinkStep(ms)) >= TotalChars(ms)
  {
    hide Pick, Escape, Growing;
    var ms := GrowingTurn(id, name, s, t);
    var n := |Escape(s)| + MAX_TOTAL_CHARS;
    var call := ToolCall(id, name, Growing(n, s));
    GrowingSizes(call, n, s);
    OneCall(call);
    GrowingArguments(call, n, s, ARG_STRING_KEEP);
    PickIsLargest(ms);
    assert PayloadSize(ms[1], OfArguments) == |s|;
    PassFreesIff(ms);
    TotalOfUpdate(ms, 1, UserMessage(""));
  }

  lemma GrowingSizes(c: ToolCall, n: nat, s: Str)
    requires c.arguments == Growing(n, s)
    ensures LongestArgument(c.arguments) == |s| && |c.arguments.text| >= 4 * n
  {
    NumbersPrint(n, s);
  }

  lemma OneCall(c: ToolCall)
    ensures LongestOfCalls([c]) == LongestArgument(c.arguments) && ArgumentChars([c]) == |c.arguments.text|
    ensures Gain([c], ARG_STRING_KEEP) == CallGain(c, ARG_STRING_KEEP)
    ensures AnyOversized([c], ARG_STRING_KEEP) <==>
      |c.arguments.text| > ARG_STRING_KEEP && LongestArgument(c.arguments) > ARG_STRING_KEEP
  {
    hide CallGain, LongestArgument;
    assert [c][..0] == [];
  }

  /** There the loop takes its defensive exit: the pass shrinks something and frees nothing, and the
      history stays over the budget with a payload over the floor. */
  lemma DefensiveExitTaken(id: Str, name: Str, s: Str, t: Str, maxTurns: nat)
    requires maxTurns >= 1 && FLOOR < |t| < |s| && |t| <= 3500
    ensures var raw := GrowingTurn(id, name, s, t);
      Shrinks(raw) && TotalChars(ShrinkStep(raw)) >= TotalChars(raw) && Pruned(raw, maxTurns) == ShrinkStep(raw)
      && TotalChars(Pruned(raw, maxTurns)) > MAX_TOTAL_CHARS && !AtFloor(Pruned(raw, maxTurns))
  {
    hide Growing, Pick, Pruned, CutPoint, Shrinks, PayloadSize, TotalChars;
    var raw := GrowingTurn(id, name, s, t);
    GrowingPick(id, name, s, t);
    GrowingPruned(id, name, s, t, maxTurns);
    assert ShrinkStep(raw)[2] == raw[2];
    assert PayloadSize(ShrinkStep(raw)[2], OfResult) > FLOOR;
  }

  lemma GrowingPruned(id: Str, name: Str, s: Str, t: Str, maxTurns: nat)
    requires maxTurns >= 1 && |t| <= 3500
    ensures var raw := GrowingTurn(id, name, s, t); Pruned(raw, maxTurns) == ShrinkToFit(raw)
  {
    hide Growing, Pruned, CutPoint, ShrinkToFit, UserIndices, LastUser;
    var raw := GrowingTurn(id, name, s, t);
    LastUserUnique(raw, 0);
    CutPointStops(raw, maxTurns);
    PrunedFromCut(raw, maxTurns);
    FoldAllAt(raw, 0);
    assert Folded(raw)[0..] == raw;
  }
}
