/** Pruning reaches the budget: every shrinking pass frees something, and the loop stops either
    within the budget or with one turn whose payloads are all at the floor. */
module PruneBudget {
  import opened Text
  import opened Json
  import opened Protocol
  import opened Payload
  import opened Turns
  import opened Prune

  // ---------- one pass ----------

  lemma {:induction false} LongCallsAreOversized(calls: seq<ToolCall>, max: nat)
    requires LongestOfCalls(calls) > max
    requires forall i :: 0 <= i < |calls| ==> Compact(calls[i].arguments)
    ensures AnyOversized(calls, max)
  {
    var c := calls[|calls| - 1];
    if LongestArgument(c.arguments) > max {
      LongestFitsText(c.arguments.value.value);
    } else {
      LongCallsAreOversized(calls[..|calls| - 1], max);
    }
  }

  lemma ShrinkMessageLowers(m: ChatMessage, kind: PayloadKind)
    requires CompactMessage(m) && PayloadSize(m, kind) > FLOOR
    ensures MessageChars(ShrinkMessage(m, kind)) < MessageChars(m)
    ensures CompactMessage(ShrinkMessage(m, kind))
    ensures kind == OfArguments ==> AnyOversized(m.toolCalls.value, ARG_STRING_KEEP)
  {
    match kind
    case OfResult =>
    case OfArguments =>
      FoldCallsShortens(m.toolCalls.value, ARG_STRING_KEEP);
      LongCallsAreOversized(m.toolCalls.value, ARG_STRING_KEEP);
    case OfReasoning => UsizeDigits(|m.reasoning.value|);
  }

  /** While some payload is over the floor, a pass shrinks something and strictly lowers the
      total, the length of the markers included. */
  lemma ShrinkStepLowers(ms: seq<ChatMessage>)
    requires CompactMessages(ms) && !AtFloor(ms)
    ensures Shrinks(ms)
    ensures TotalChars(ShrinkStep(ms)) < TotalChars(ms)
    ensures CompactMessages(ShrinkStep(ms))
  {
    PickIsLargest(ms);
    var c := Pick(ms).value;
    ShrinkMessageLowers(ms[c.index], c.kind);
    TotalOfUpdate(ms, c.index, ShrinkMessage(ms[c.index], c.kind));
  }

  /** Without the assumption on serialised text, a pass frees something exactly when it does not
      fold arguments, or the strings it folds weigh more than what printing the documents again
      adds: otherwise the loop takes its defensive exit. */
  lemma PassFreesIff(ms: seq<ChatMessage>)
    requires !AtFloor(ms)
    ensures Pick(ms).Some? && Pick(ms).value.index < |ms|
    ensures Pick(ms).value.kind == OfArguments ==> ms[Pick(ms).value.index].toolCalls.Some?
    ensures TotalChars(ShrinkStep(ms)) < TotalChars(ms) <==>
      (Pick(ms).value.kind == OfArguments ==> Gain(ms[Pick(ms).value.index].toolCalls.value, ARG_STRING_KEEP) > 0)
  {
    PickIsLargest(ms);
    hide Pick, Worst, ElisionNote, FoldCalls, TotalChars, Gain;
    var c := Pick(ms).value;
    var m := ms[c.index];
    TotalOfUpdate(ms, c.index, ShrinkMessage(m, c.kind));
    match c.kind
    case OfResult =>
    case OfArguments => FoldFreesGain(m.toolCalls.value, ARG_STRING_KEEP);
    case OfReasoning => UsizeDigits(|m.reasoning.value|);
  }

  lemma {:induction false} ShrinkToFitBudget(ms: seq<ChatMessage>)
    requires CompactMessages(ms)
    ensures var r := ShrinkToFit(ms);
      CompactMessages(r) && TotalChars(r) <= TotalChars(ms) && (TotalChars(r) <= MAX_TOTAL_CHARS || AtFloor(r))
    decreases TotalChars(ms)
  {
    PickIsLargest(ms);
    if TotalChars(ms) > MAX_TOTAL_CHARS && !AtFloor(ms) {
      ShrinkStepLowers(ms);
      ShrinkToFitBudget(ShrinkStep(ms));
    }
  }

  // ---------- folding keeps text compact ----------

  lemma FoldMessageCompact(m: ChatMessage, newest: bool)
    requires CompactMessage(m)
    ensures CompactMessage(FoldMessage(m, newest))
  {
    if m.toolCalls.Some? { FoldCallsShortens(m.toolCalls.value, ARG_STRING_KEEP); }
  }

  lemma FoldedCompact(ms: seq<ChatMessage>)
    requires CompactMessages(ms)
    ensures CompactMessages(Folded(ms))
  {
    FoldAllAt(ms, LastUser(ms));
    forall i | 0 <= i < |ms| ensures CompactMessage(Folded(ms)[i]) {
      FoldMessageCompact(ms[i], i >= LastUser(ms));
    }
  }

  /** Folding leaves every turn where it was. */
  lemma FoldedTurns(ms: seq<ChatMessage>)
    ensures |Folded(ms)| == |ms|
    ensures UserIndices(Folded(ms)) == UserIndices(ms)
  {
    FoldAllAt(ms, LastUser(ms));
    SameRolesSameTurns(ms, Folded(ms));
  }

  lemma FoldedRole(ms: seq<ChatMessage>, i: nat)
    requires i < |ms|
    ensures |Folded(ms)| == |ms| && Folded(ms)[i].role == ms[i].role
  {
    FoldAllAt(ms, LastUser(ms));
  }

  // ---------- dropping turns ----------

  /** Dropping stops within the budget or at the newest turn, always at a turn boundary. */
  lemma {:induction false} DropPointStops(ms: seq<ChatMessage>)
    ensures DropPoint(ms) == 0 || (DropPoint(ms) < |ms| && IsUser(ms[DropPoint(ms)]))
    ensures TotalChars(ms[DropPoint(ms)..]) <= MAX_TOTAL_CHARS || Users(ms[DropPoint(ms)..]) <= 1
    ensures Users(ms) > 0 ==> DropPoint(ms) <= LastUser(ms)
    decreases Users(ms)
  {
    if TotalChars(ms) <= MAX_TOTAL_CHARS || Users(ms) <= 1 {
      assert ms[0..] == ms;
    } else {
      var c := UserIndices(ms)[1];
      var rest := ms[c..];
      UserIndicesSound(ms);
      CutAtTurn(ms, 1);
      LastUserOfSuffix(ms, c);
      DropPointStops(rest);
      assert ms[DropPoint(ms)..] == rest[DropPoint(rest)..];
    }
  }

  /** Every turn boundary that dropping passed left too much behind it. */
  lemma {:induction false} DropPointPassed(ms: seq<ChatMessage>, j: nat)
    requires 1 <= j < Users(ms) && UserIndices(ms)[j] < DropPoint(ms)
    ensures TotalChars(ms[UserIndices(ms)[j]..]) > MAX_TOTAL_CHARS
    decreases Users(ms)
  {
    var u := UserIndices(ms);
    var c := u[1];
    var rest := ms[c..];
    CutAtTurn(ms, 1);
    var u' := UserIndices(rest);
    assert u[1..][j - 1] == Shifted(u', c)[j - 1] == u[j];
    assert ms[u[j]..] == rest[u'[j - 1]..];
    if j == 1 {
      assert u'[0] == 0 && rest[0..] == rest;
    } else {
      DropPointPassed(rest, j - 1);
    }
  }

  // ---------- the main results ----------

  /** Every history with a user message, in which serialising arguments again does not lengthen
      them, is pruned to the budget, or to one turn in which no tool result, argument string or
      reasoning is longer than 800 characters. */
  lemma PruneMeetsBudget(raw: seq<ChatMessage>, maxTurns: nat)
    requires maxTurns >= 1 && Users(raw) > 0 && CompactMessages(raw)
    ensures var r := Pruned(raw, maxTurns);
      TotalChars(r) <= 48_000 || (Users(r) == 1 && AtFloor(r) && forall i, kind :: 0 <= i < |r| ==> PayloadSize(r[i], kind) <= 800)
  {
    var sliced := Sliced(raw, maxTurns);
    SlicedTurns(raw, maxTurns);
    FoldedCompact(sliced);
    var folded := Folded(sliced);
    FoldedTurns(sliced);
    DropPointStops(folded);
    var kept := Dropped(folded);
    LastUserOfSuffix(folded, DropPoint(folded));
    ShrinkToFitBudget(kept);
    ShrinkToFitRoles(kept);
    SameRolesSameTurns(kept, ShrinkToFit(kept));
  }

  /** Slicing keeps the newest `maxTurns` turns: the start is a turn boundary (or the whole
      history when there are few), at or before the newest turn. */
  lemma SlicedTurns(raw: seq<ChatMessage>, maxTurns: nat)
    requires maxTurns >= 1 && Users(raw) > 0
    ensures var s := RetainedStart(raw, maxTurns);
      s <= LastUser(raw) && (s == 0 || IsUser(raw[s]))
      && LastUser(raw[s..]) == LastUser(raw) - s
      && Users(raw[s..]) == (if Users(raw) > maxTurns then maxTurns else Users(raw))
  {
    var s := RetainedStart(raw, maxTurns);
    var u := UserIndices(raw);
    UserIndicesSound(raw);
    if |u| > maxTurns {
      CutAtTurn(raw, |u| - maxTurns);
    } else {
      assert raw[0..] == raw;
    }
    LastUserOfSuffix(raw, s);
  }

  lemma {:induction false} ShrinkToFitRoles(ms: seq<ChatMessage>)
    ensures forall i :: 0 <= i < |ms| ==> ShrinkToFit(ms)[i].role == ms[i].role
    decreases TotalChars(ms)
  {
    if TotalChars(ms) > MAX_TOTAL_CHARS && Shrinks(ms) && TotalChars(ShrinkStep(ms)) < TotalChars(ms) {
      ShrinkToFitRoles(ShrinkStep(ms));
    }
  }
}
