/** What a pruned history keeps of its tool results, in characters of the input. */
module PruneContent {
  import opened Text
  import opened Protocol
  import opened Payload
  import opened Turns
  import opened Prune
  import opened PruneShape
  import opened PruneFloor

  predicate IsToolText(m: ChatMessage) { m.role == Tool && m.content.Some? && m.content.value.Text? }

  /** A tool result over the limit keeps its own head and tail around a note with the count of the
      characters left out; everything else keeps its content. */
  ghost predicate Capped(m: ChatMessage, r: ChatMessage, limit: nat, head: nat, tail: nat)
  {
    if IsToolText(m) && |m.content.value.text| > limit then
      r.content.Some? && r.content.value.Text? && Cut(m.content.value.text, r.content.value.text, head, tail)
      && |r.content.value.text| <= head + tail + 59
    else r.content == m.content
  }

  lemma FoldMessageCaps(m: ChatMessage, newest: bool)
    ensures FoldMessage(m, newest).role == m.role
    ensures if newest then Capped(m, FoldMessage(m, true), 3500, 1500, 600) else Capped(m, FoldMessage(m, false), 600, 250, 150)
  {
    hide Elide, Cut, FoldCalls;
    if IsToolText(m) {
      var t := m.content.value.text;
      if newest && |t| > 3500 { ElideCuts(OneStep, t, 1500, 600); }
      if !newest && |t| > 600 { ElideCuts(History, t, 250, 150); }
    }
  }

  // ---------- what the shrinking loop does to a result ----------

  /** One pass over a result: of its text the first three quarters of a half and the last quarter are
      left around the note. */
  ghost predicate HalvedOnce(t: string, r: string)
  {
    |t| > 800 && var half := |t| / 2; Cut(t, r, half * 3 / 4, half - half * 3 / 4)
  }

  /** Any number of passes. */
  ghost predicate Halved(t: string, r: string, passes: nat)
    decreases passes
  {
    if passes == 0 then r == t
    else exists u: string :: HalvedOnce(t, u) && Halved(u, r, passes - 1)
  }

  lemma HalveCuts(t: Str)
    requires |t| > FLOOR
    ensures HalvedOnce(t, Halve(t))
  {
    hide Elide, Cut;
    var target := |t| / 2;
    ElideCuts(History, t, target * 3 / 4, target - target * 3 / 4);
  }

  lemma OtherContent(ms: seq<ChatMessage>, i: nat)
    requires i < |ms| && !Picks(ms, i, OfResult)
    ensures ShrinkStep(ms)[i].content == ms[i].content && ShrinkStep(ms)[i].role == ms[i].role
  {
    hide Pick, FoldCalls, Elide, ElisionNote;
  }

  /** A pass that picks a result cuts it to half and touches nothing else. */
  lemma ResultPass(ms: seq<ChatMessage>, i: nat)
    requires i < |ms| && Picks(ms, i, OfResult)
    ensures var r := ShrinkStep(ms);
      IsToolText(ms[i]) && r[i] == ms[i].(content := r[i].content) && IsToolText(r[i])
      && HalvedOnce(ms[i].content.value.text, r[i].content.value.text)
      && forall j :: 0 <= j < |ms| && j != i ==> r[j] == ms[j]
  {
    hide Pick, Halve, HalvedOnce;
    PickIsLargest(ms);
    HalveCuts(ms[i].content.value.text);
  }

  /** Over the whole loop a result is cut to half any number of times, and not at all once it is at
      the floor. */
  lemma {:induction false} ResultThroughLoop(ms: seq<ChatMessage>, i: nat) returns (passes: nat)
    requires i < |ms| && IsToolText(ms[i])
    ensures IsToolText(ShrinkToFit(ms)[i])
    ensures Halved(ms[i].content.value.text, ShrinkToFit(ms)[i].content.value.text, passes)
    ensures |ms[i].content.value.text| <= FLOOR ==> passes == 0
    decreases TotalChars(ms)
  {
    hide Pick, ShrinkStep, Shrinks, HalvedOnce, TotalChars;
    passes := 0;
    if TotalChars(ms) > MAX_TOTAL_CHARS {
      PickIsLargest(ms);
      var step := ShrinkStep(ms);
      if Picks(ms, i, OfResult) { ResultPass(ms, i); } else { OtherContent(ms, i); }
      if Shrinks(ms) && TotalChars(step) < TotalChars(ms) {
        passes := ResultThroughLoop(step, i);
      }
      if Picks(ms, i, OfResult) {
        passes := passes + 1;
      }
    }
  }

  // ---------- the whole of pruning ----------

  /** In an earlier turn a tool result of at most 600 characters is kept whole; of a longer one the
      first 250 and the last 150 are kept. Of any other message the content is kept. */
  lemma EarlierContent(raw: seq<ChatMessage>, maxTurns: nat, i: nat)
    requires maxTurns >= 1 && Users(raw) > 0
    requires CutPoint(raw, maxTurns) <= i < LastUser(raw) < |raw|
    ensures var c := CutPoint(raw, maxTurns);
      |Pruned(raw, maxTurns)| == |raw| - c && Capped(raw[i], Pruned(raw, maxTurns)[i - c], 600, 250, 150)
  {
    hide Pruned, CutPoint, LastUser, FoldMessage, Folded, ShrinkToFit, Cut, Halved;
    var c := CutPoint(raw, maxTurns);
    PrunedFromCut(raw, maxTurns);
    FoldedMessage(raw, c, i);
    FoldMessageCaps(raw[i], false);
    var ms := Folded(raw)[c..];
    ContentThroughLoop(ms, i - c);
  }

  /** There the strings of arguments over 400 characters and reasoning over 400 become markers. */
  lemma EarlierParts(raw: seq<ChatMessage>, maxTurns: nat, i: nat)
    requires maxTurns >= 1 && Users(raw) > 0
    requires CutPoint(raw, maxTurns) <= i < LastUser(raw) < |raw|
    ensures var c := CutPoint(raw, maxTurns);
      |Pruned(raw, maxTurns)| == |raw| - c
      && CallsFolded(raw[i], Pruned(raw, maxTurns)[i - c], 400) && ReasoningFolded(raw[i], Pruned(raw, maxTurns)[i - c], 400)
  {
    hide Pruned, CutPoint, LastUser, FoldArguments, FoldReasoning, CallFolded, HoldsCount;
    PrunedMessagesReduced(raw, maxTurns);
    var c := CutPoint(raw, maxTurns);
    assert raw[c..][i - c] == raw[i];
    assert Reduced(raw[i], Pruned(raw, maxTurns)[i - c], i - c >= LastUser(raw) - c);
    FoldArgumentsReads(raw[i], ARG_STRING_KEEP);
    FoldReasoningReads(raw[i], ARG_STRING_KEEP);
  }

  /** A message that is no tool result over the floor keeps its content in the loop. */
  lemma ContentThroughLoop(ms: seq<ChatMessage>, j: nat)
    requires j < |ms| && (IsToolText(ms[j]) ==> |ms[j].content.value.text| <= FLOOR)
    ensures ShrinkToFit(ms)[j].content == ms[j].content
  {
    hide ShrinkToFit;
    if IsToolText(ms[j]) {
      var passes := ResultThroughLoop(ms, j);
    } else {
      OthersThroughLoop(ms, j);
    }
  }

  lemma {:induction false} OthersThroughLoop(ms: seq<ChatMessage>, j: nat)
    requires j < |ms| && !IsToolText(ms[j])
    ensures ShrinkToFit(ms)[j].content == ms[j].content
    decreases TotalChars(ms)
  {
    hide Pick, ShrinkStep, Shrinks, TotalChars;
    if TotalChars(ms) > MAX_TOTAL_CHARS {
      PickIsLargest(ms);
      OtherContent(ms, j);
      if Shrinks(ms) && TotalChars(ShrinkStep(ms)) < TotalChars(ms) { OthersThroughLoop(ShrinkStep(ms), j); }
    }
  }

  /** In the newest turn a tool result of at most 3,500 characters is first kept whole, and of a longer
      one the first 1,500 and the last 600 characters; then the loop cuts it to half, any number of
      times, and never when it is at most 800 characters. */
  lemma NewestContent(raw: seq<ChatMessage>, maxTurns: nat, i: nat) returns (capped: ChatMessage, passes: nat)
    requires maxTurns >= 1 && Users(raw) > 0
    requires LastUser(raw) <= i < |raw|
    ensures CutPoint(raw, maxTurns) <= i && Capped(raw[i], capped, 3500, 1500, 600) && capped.role == raw[i].role
    ensures var c := CutPoint(raw, maxTurns); |Pruned(raw, maxTurns)| == |raw| - c
    ensures var r := Pruned(raw, maxTurns)[i - CutPoint(raw, maxTurns)];
      if IsToolText(raw[i]) then
        IsToolText(capped) && IsToolText(r) && Halved(capped.content.value.text, r.content.value.text, passes)
        && (|capped.content.value.text| <= 800 ==> passes == 0)
      else r.content == raw[i].content
  {
    hide Pruned, CutPoint, LastUser, FoldMessage, Folded, ShrinkToFit, Cut, Halved;
    CutPointStops(raw, maxTurns);
    var c := CutPoint(raw, maxTurns);
    PrunedFromCut(raw, maxTurns);
    FoldedMessage(raw, c, i);
    FoldMessageCaps(raw[i], true);
    capped := FoldMessage(raw[i], true);
    passes := 0;
    if IsToolText(raw[i]) { passes := ResultThroughLoop(Folded(raw)[c..], i - c); } else { OthersThroughLoop(Folded(raw)[c..], i - c); }
  }

  /** When the newest turn fits after that, nothing is cut to half. */
  lemma NewestContentFits(raw: seq<ChatMessage>, maxTurns: nat, i: nat)
    requires maxTurns >= 1 && raw != [] && IsUser(raw[0])
    requires TotalChars(Folded(raw)[LastUser(raw)..]) <= MAX_TOTAL_CHARS
    requires LastUser(raw) <= i < |raw|
    ensures CutPoint(raw, maxTurns) <= i
    ensures var c := CutPoint(raw, maxTurns);
      |Pruned(raw, maxTurns)| == |raw| - c && Capped(raw[i], Pruned(raw, maxTurns)[i - c], 3500, 1500, 600)
  {
    hide Pruned, CutPoint, LastUser, FoldMessage, Folded, Cut;
    NewestTurnFits(raw, maxTurns);
    FoldedMessage(raw, CutPoint(raw, maxTurns), i);
    FoldMessageCaps(raw[i], true);
  }
}
