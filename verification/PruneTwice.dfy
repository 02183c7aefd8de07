/** Pruning is idempotent: every fold lands below its own threshold, dropping turns is at a
    fixpoint, and the newest turn stays the newest. */
module PruneTwice {
  import opened Text
  import opened Protocol
  import opened Payload
  import opened Turns
  import opened Prune
  import opened PruneBudget
  import opened PruneShape

  lemma FoldMessageTwice(m: ChatMessage, newest: bool)
    ensures FoldMessage(FoldMessage(m, newest), newest) == FoldMessage(m, newest)
  {
    hide FoldCalls, ElisionNote;
    var t := TruncateResult(m, newest);
    assert TruncateResult(t, newest) == t;
    if !newest {
      var a := FoldArguments(t, ARG_STRING_KEEP);
      FoldArgumentsTwice(t, ARG_STRING_KEEP);
      FoldReasoningTwice(a, ARG_STRING_KEEP);
      var r := FoldReasoning(a, ARG_STRING_KEEP);
      assert r.toolCalls == a.toolCalls;
      assert FoldArguments(r, ARG_STRING_KEEP) == r;
    }
  }

  /** A folded old message holds nothing over the floor. */
  lemma OldMessageIsSmall(m: ChatMessage, kind: PayloadKind)
    requires CompactMessage(m)
    ensures PayloadSize(FoldMessage(m, false), kind) <= FLOOR
  {
    var t := TruncateResult(m, false);
    FoldReasoningTwice(FoldArguments(t, ARG_STRING_KEEP), ARG_STRING_KEEP);
    if m.toolCalls.Some? { FoldCallsShortens(m.toolCalls.value, ARG_STRING_KEEP); }
  }

  /** Folding again changes no message, and before `last` nothing is left to shrink. */
  ghost predicate Settled(ms: seq<ChatMessage>, last: nat)
  {
    (forall i :: 0 <= i < |ms| ==> FoldMessage(ms[i], i >= last) == ms[i])
    && (forall i, kind :: 0 <= i < last && i < |ms| ==> PayloadSize(ms[i], kind) <= FLOOR)
  }

  lemma ShrunkMessageSettled(m: ChatMessage, kind: PayloadKind)
    requires FoldMessage(m, true) == m
    ensures FoldMessage(ShrinkMessage(m, kind), true) == ShrinkMessage(m, kind)
  {
  }

  lemma ShrinkStepSettled(ms: seq<ChatMessage>, last: nat)
    requires Settled(ms, last)
    ensures Settled(ShrinkStep(ms), last)
  {
    hide ShrinkMessage, FoldMessage, Worst;
    PickIsLargest(ms);
    if Pick(ms).Some? {
      var c := Pick(ms).value;
      assert c.index >= last;
      ShrunkMessageSettled(ms[c.index], c.kind);
    }
  }

  lemma {:induction false} ShrinkToFitSettled(ms: seq<ChatMessage>, last: nat)
    requires Settled(ms, last)
    ensures Settled(ShrinkToFit(ms), last)
    decreases TotalChars(ms)
  {
    hide Shrinks, Pick, ShrinkMessage, FoldMessage;
    ShrinkStepSettled(ms, last);
    if TotalChars(ms) > MAX_TOTAL_CHARS && Shrinks(ms) && TotalChars(ShrinkStep(ms)) < TotalChars(ms) {
      ShrinkToFitSettled(ShrinkStep(ms), last);
    }
  }

  lemma FoldedIsSettled(raw: seq<ChatMessage>, c: nat)
    requires CompactMessages(raw) && c <= LastUser(raw) <= |raw|
    ensures c <= |Folded(raw)| && Settled(Folded(raw)[c..], LastUser(raw) - c)
  {
    hide FoldMessage, PayloadSize;
    FoldAllAt(raw, LastUser(raw));
    var d := Folded(raw)[c..];
    forall i | 0 <= i < |d| ensures FoldMessage(d[i], i >= LastUser(raw) - c) == d[i] {
      FoldMessageTwice(raw[c + i], c + i >= LastUser(raw));
    }
    forall i, kind | 0 <= i < LastUser(raw) - c && i < |d| ensures PayloadSize(d[i], kind) <= FLOOR {
      OldMessageIsSmall(raw[c + i], kind);
    }
  }

  lemma SettledFolds(ms: seq<ChatMessage>)
    requires Settled(ms, LastUser(ms))
    ensures Folded(ms) == ms
  {
    hide FoldMessage;
    FoldAllAt(ms, LastUser(ms));
  }

  /** A history that is already folded, within the turn limit, and within the budget or down to
      one turn at the floor, is a fixpoint of pruning. */
  lemma PruneFixpoint(ms: seq<ChatMessage>, maxTurns: nat)
    requires maxTurns >= 1 && 0 < Users(ms) <= maxTurns && Settled(ms, LastUser(ms))
    requires TotalChars(ms) <= MAX_TOTAL_CHARS || (Users(ms) <= 1 && AtFloor(ms))
    ensures Pruned(ms, maxTurns) == ms
  {
    hide FoldAll, FoldMessage, Worst, UserIndices, PayloadSize;
    SettledFolds(ms);
    assert ms[0..] == ms;
    PickIsLargest(ms);
  }

  lemma PrunedIsSettled(raw: seq<ChatMessage>, maxTurns: nat)
    requires maxTurns >= 1 && CompactMessages(raw) && Users(raw) > 0
    ensures CutPoint(raw, maxTurns) <= LastUser(raw)
    ensures Settled(Pruned(raw, maxTurns), LastUser(raw) - CutPoint(raw, maxTurns))
  {
    hide Pruned, FoldAll, ShrinkToFit, DropPoint, UserIndices, TotalChars, Settled;
    CutPointStops(raw, maxTurns);
    PrunedFromCut(raw, maxTurns);
    FoldedIsSettled(raw, CutPoint(raw, maxTurns));
    ShrinkToFitSettled(Folded(raw)[CutPoint(raw, maxTurns)..], LastUser(raw) - CutPoint(raw, maxTurns));
  }

  /** Pruning an already pruned history changes nothing. */
  lemma PruneIdempotent(raw: seq<ChatMessage>, maxTurns: nat)
    requires maxTurns >= 1 && CompactMessages(raw)
    ensures Pruned(Pruned(raw, maxTurns), maxTurns) == Pruned(raw, maxTurns)
  {
    if Users(raw) > 0 {
      hide Pruned, FoldAll, CutPoint, UserIndices, TotalChars, Settled, AtFloor;
      PrunedIsSettled(raw, maxTurns);
      PrunedTurns(raw, maxTurns);
      PruneMeetsBudget(raw, maxTurns);
      PruneFixpoint(Pruned(raw, maxTurns), maxTurns);
    }
  }

  /** The pruned history has at most `maxTurns` turns, and its newest turn is the newest one of
      the raw history. */
  lemma PrunedTurns(raw: seq<ChatMessage>, maxTurns: nat)
    requires maxTurns >= 1 && Users(raw) > 0
    ensures var r := Pruned(raw, maxTurns);
      0 < Users(r) <= maxTurns && LastUser(r) + CutPoint(raw, maxTurns) == LastUser(raw)
  {
    hide Pruned, FoldAll, ShrinkToFit, DropPoint, UserIndices, TotalChars;
    var c := CutPoint(raw, maxTurns);
    CutPointStops(raw, maxTurns);
    PruneKeepsShape(raw, maxTurns);
    ShapeGivesTurns(Pruned(raw, maxTurns), raw[c..]);
    LastUserOfSuffix(raw, c);
    SlicedTurns(raw, maxTurns);
    CutPointAfterSlice(raw, maxTurns);
    FewerTurnsLater(raw, RetainedStart(raw, maxTurns), c);
  }

  lemma CutPointAfterSlice(raw: seq<ChatMessage>, maxTurns: nat)
    requires maxTurns >= 1 && Users(raw) > 0
    ensures RetainedStart(raw, maxTurns) <= CutPoint(raw, maxTurns)
  {
  }

  lemma ShapeGivesTurns(a: seq<ChatMessage>, b: seq<ChatMessage>)
    requires SameShape(a, b)
    ensures UserIndices(a) == UserIndices(b)
  {
    forall i | 0 <= i < |a| ensures a[i].role == b[i].role {
      assert Erased(a[i]) == Erased(b[i]);
    }
    SameRolesSameTurns(a, b);
  }
}
