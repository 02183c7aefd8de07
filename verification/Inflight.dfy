/** Compaction of the messages of the turn that is still running. */
module Inflight {
  import opened Text
  import opened Json
  import opened Protocol
  import opened Payload

  const INFLIGHT_ARG_STRING_KEEP: nat := 2000

  function FoldContent(m: ChatMessage): ChatMessage
  {
    match m.content
    case Some(Text(t)) =>
      if |t| > 1000 then m.(content := Some(Text(Elide(Elision.Inflight, t, 350, 150)))) else m
    case _ => m
  }

  function FoldInflight(m: ChatMessage): (r: ChatMessage)
  {
    FoldReasoning(FoldArguments(FoldContent(m), INFLIGHT_ARG_STRING_KEEP), INFLIGHT_ARG_STRING_KEEP)
  }

  /** How many tool results a list holds. */
  function Tools(ms: seq<ChatMessage>): nat
  {
    if ms == [] then 0
    else Tools(ms[..|ms| - 1]) + (if ms[|ms| - 1].role == Tool then 1 else 0)
  }

  function ToolIndices(ms: seq<ChatMessage>): (r: seq<nat>)
    ensures forall k :: 0 <= k < |r| ==> r[k] < |ms|
    ensures |r| == Tools(ms)
  {
    if ms == [] then []
    else ToolIndices(ms[..|ms| - 1]) + (if ms[|ms| - 1].role == Tool then [|ms| - 1] else [])
  }

  /** Position of the second-to-last tool result, 0 when there are at most two. */
  function Cutoff(ms: seq<ChatMessage>): (c: nat)
    ensures c <= |ms|
  {
    var t := ToolIndices(ms);
    if |t| <= 2 then 0 else t[|t| - 2]
  }

  function FoldFirst(ms: seq<ChatMessage>, n: nat): (r: seq<ChatMessage>)
    requires n <= |ms|
    ensures |r| == |ms|
  {
    if n == 0 then ms else FoldFirst(ms, n - 1)[n - 1 := FoldInflight(ms[n - 1])]
  }

  lemma {:induction false} FoldFirstAt(ms: seq<ChatMessage>, n: nat)
    requires n <= |ms|
    ensures forall i :: 0 <= i < |ms| ==> FoldFirst(ms, n)[i] == if i < n then FoldInflight(ms[i]) else ms[i]
  {
    hide FoldInflight;
    if n == 0 {
    } else {
      FoldFirstAt(ms, n - 1);
    }
  }

  function Compacted(ms: seq<ChatMessage>): (r: seq<ChatMessage>)
    ensures |r| == |ms|
  {
    FoldFirst(ms, Cutoff(ms))
  }

  method FoldOne(m: ChatMessage) returns (r: ChatMessage)
    ensures r == FoldInflight(m)
  {
    var folded, _ := ShrinkMessageArguments(FoldContent(m), INFLIGHT_ARG_STRING_KEEP);
    r := FoldReasoning(folded, INFLIGHT_ARG_STRING_KEEP);
  }

  method CollectToolIndices(ms: seq<ChatMessage>) returns (r: seq<nat>)
    ensures r == ToolIndices(ms)
  {
    r := [];
    for i := 0 to |ms|
      invariant r == ToolIndices(ms[..i])
    {
      assert ms[..i + 1][..i] == ms[..i];
      if ms[i].role == Tool { r := r + [i]; }
    }
    assert ms[..|ms|] == ms;
  }

  // ---------- which messages are folded, and how they read then ----------

  /** Text over 1,000 characters keeps its first 350 and its last 150. */
  ghost predicate ContentFolded(m: ChatMessage, r: ChatMessage)
  {
    if m.content.Some? && m.content.value.Text? && |m.content.value.text| > 1000 then
      r.content.Some? && r.content.value.Text? && Cut(m.content.value.text, r.content.value.text, 350, 150)
    else r.content == m.content
  }

  ghost predicate MessageFolded(m: ChatMessage, r: ChatMessage)
  {
    r.role == m.role && r.toolCallId == m.toolCallId
    && ContentFolded(m, r) && CallsFolded(m, r, 2000) && ReasoningFolded(m, r, 2000)
  }

  lemma FoldInflightReads(m: ChatMessage)
    ensures MessageFolded(m, FoldInflight(m))
  {
    hide Elide, Cut, FoldCalls, CallFolded;
    var a := FoldContent(m);
    if a != m { ElideCuts(Elision.Inflight, m.content.value.text, 350, 150); }
    FoldArgumentsReads(a, INFLIGHT_ARG_STRING_KEEP);
    FoldReasoningReads(FoldArguments(a, INFLIGHT_ARG_STRING_KEEP), INFLIGHT_ARG_STRING_KEEP);
  }

  lemma {:induction false} ToolsConcat(a: seq<ChatMessage>, b: seq<ChatMessage>)
    ensures Tools(a + b) == Tools(a) + Tools(b)
  {
    if b == [] {
      assert a + b == a;
    } else {
      ToolsConcat(a, b[..|b| - 1]);
      assert (a + b)[..|a + b| - 1] == a + b[..|b| - 1];
    }
  }

  /** The k-th index is a tool result with `k` results before it. */
  lemma {:induction false} ToolIndexIs(ms: seq<ChatMessage>, k: nat)
    requires k < Tools(ms)
    ensures var i := ToolIndices(ms)[k]; ms[i].role == Tool && Tools(ms[..i]) == k
  {
    var front := ms[..|ms| - 1];
    if k < Tools(front) {
      ToolIndexIs(front, k);
      assert ms[..ToolIndices(ms)[k]] == front[..ToolIndices(ms)[k]];
    }
  }

  /** The cutoff is the second-to-last tool result: it is one, and there is one after it. */
  lemma CutoffIsSecondToLast(ms: seq<ChatMessage>)
    requires Tools(ms) > 2
    ensures Cutoff(ms) < |ms| && ms[Cutoff(ms)].role == Tool && Tools(ms[Cutoff(ms)..]) == 2
  {
    hide ToolIndices, Tools;
    var c := Cutoff(ms);
    ToolIndexIs(ms, Tools(ms) - 2);
    assert ms == ms[..c] + ms[c..];
    ToolsConcat(ms[..c], ms[c..]);
  }

  /** A message is past the cutoff when at most one tool result comes after it, or there are no
      more than two in all. */
  predicate Recent(ms: seq<ChatMessage>, i: nat)
    requires i < |ms|
  {
    Tools(ms) <= 2 || Tools(ms[i + 1..]) < 2
  }

  lemma RecentIff(ms: seq<ChatMessage>, i: nat)
    requires i < |ms|
    ensures Recent(ms, i) <==> Cutoff(ms) <= i
  {
    hide ToolIndices;
    if Tools(ms) > 2 {
      var c := Cutoff(ms);
      CutoffIsSecondToLast(ms);
      assert ms[c..] == [ms[c]] + ms[c + 1..];
      ToolsConcat([ms[c]], ms[c + 1..]);
      assert [ms[c]][..0] == [];
      if c <= i {
        assert ms[c + 1..] == ms[c + 1..i + 1] + ms[i + 1..];
        ToolsConcat(ms[c + 1..i + 1], ms[i + 1..]);
      } else {
        assert ms[i + 1..] == ms[i + 1..c] + ms[c..];
        ToolsConcat(ms[i + 1..c], ms[c..]);
      }
    }
  }

  /** Compaction, read message by message. */
  ghost predicate CompactedFrom(ms: seq<ChatMessage>, rs: seq<ChatMessage>)
  {
    |rs| == |ms| && forall i :: 0 <= i < |ms| ==> if Recent(ms, i) then rs[i] == ms[i] else MessageFolded(ms[i], rs[i])
  }

  lemma CompactedReads(ms: seq<ChatMessage>)
    ensures CompactedFrom(ms, Compacted(ms))
  {
    hide FoldInflight, FoldFirst, MessageFolded, Recent, Cutoff;
    FoldFirstAt(ms, Cutoff(ms));
    forall i | 0 <= i < |ms| ensures if Recent(ms, i) then Compacted(ms)[i] == ms[i] else MessageFolded(ms[i], Compacted(ms)[i]) {
      RecentIff(ms, i);
      FoldInflightReads(ms[i]);
    }
  }

  /** Fold, in place, everything before the last two tool results. */
  method CompactInflightMessages(messages: array<ChatMessage>)
    modifies messages
    ensures messages[..] == Compacted(old(messages[..]))
    ensures CompactedFrom(old(messages[..]), messages[..])
  {
    hide FoldInflight, FoldFirst, CompactedFrom;
    CompactedReads(messages[..]);
    ghost var ms := messages[..];
    var toolIndices := CollectToolIndices(messages[..]);
    var totalTools := |toolIndices|;
    FoldFirstAt(ms, Cutoff(ms));
    if totalTools > 2 {
      var recentCutoff := toolIndices[totalTools - 2];
      var idx := 0;
      while idx < messages.Length && idx < recentCutoff
        invariant 0 <= idx <= recentCutoff
        invariant forall i :: 0 <= i < idx ==> messages[i] == FoldInflight(ms[i])
        invariant forall i :: idx <= i < messages.Length ==> messages[i] == ms[i]
      {
        messages[idx] := FoldOne(messages[idx]);
        idx := idx + 1;
      }
    }
    assert messages[..] == Compacted(ms);
  }

  // ---------- incremental equals batch ----------

  lemma FoldInflightTwice(m: ChatMessage)
    ensures FoldInflight(FoldInflight(m)) == FoldInflight(m)
    ensures FoldInflight(m).role == m.role
  {
    hide FoldCalls, ElisionNote;
    var t := FoldContent(m);
    assert FoldContent(t) == t;
    var a := FoldArguments(t, INFLIGHT_ARG_STRING_KEEP);
    FoldArgumentsTwice(t, INFLIGHT_ARG_STRING_KEEP);
    FoldReasoningTwice(a, INFLIGHT_ARG_STRING_KEEP);
    var r := FoldReasoning(a, INFLIGHT_ARG_STRING_KEEP);
    assert r.toolCalls == a.toolCalls;
    assert FoldArguments(r, INFLIGHT_ARG_STRING_KEEP) == r;
  }

  lemma {:induction false} SameRolesSameTools(a: seq<ChatMessage>, b: seq<ChatMessage>)
    requires |a| == |b| && forall i :: 0 <= i < |a| ==> a[i].role == b[i].role
    ensures ToolIndices(a) == ToolIndices(b)
  {
    if a != [] { SameRolesSameTools(a[..|a| - 1], b[..|b| - 1]); }
  }

  lemma {:induction false} ToolIndicesSorted(ms: seq<ChatMessage>)
    ensures forall j, k :: 0 <= j < k < |ToolIndices(ms)| ==> ToolIndices(ms)[j] < ToolIndices(ms)[k]
  {
    if ms == [] {
    } else {
      ToolIndicesSorted(ms[..|ms| - 1]);
    }
  }

  lemma {:induction false} ToolIndicesGrow(ms: seq<ChatMessage>, more: seq<ChatMessage>)
    ensures ToolIndices(ms) <= ToolIndices(ms + more)
  {
    if more == [] {
      assert ms + more == ms;
    } else {
      ToolIndicesGrow(ms, more[..|more| - 1]);
      assert (ms + more)[..|ms + more| - 1] == ms + more[..|more| - 1];
    }
  }

  /** The cutoff never moves back as messages arrive. */
  lemma CutoffGrows(ms: seq<ChatMessage>, more: seq<ChatMessage>)
    ensures Cutoff(ms) <= Cutoff(ms + more)
  {
    ToolIndicesGrow(ms, more);
    ToolIndicesSorted(ms + more);
    var t, t' := ToolIndices(ms), ToolIndices(ms + more);
    if |t| > 2 { assert t'[|t| - 2] == t[|t| - 2]; }
  }

  /** A list whose first messages are already folded compacts to the same list, as long as no
      message at or past the cutoff was folded. */
  lemma CompactAfterFolding(whole: seq<ChatMessage>, n: nat)
    requires n <= Cutoff(whole)
    ensures Cutoff(FoldFirst(whole, n)) == Cutoff(whole)
    ensures Compacted(FoldFirst(whole, n)) == Compacted(whole)
  {
    hide FoldInflight, FoldFirst, ToolIndices;
    var part := FoldFirst(whole, n);
    FoldFirstAt(whole, n);
    forall i | 0 <= i < |whole| ensures part[i].role == whole[i].role {
      FoldInflightTwice(whole[i]);
    }
    SameRolesSameTools(part, whole);
    var c := Cutoff(whole);
    FoldFirstAt(part, c);
    FoldFirstAt(whole, c);
    forall i | 0 <= i < |whole| ensures Compacted(part)[i] == Compacted(whole)[i] {
      FoldInflightTwice(whole[i]);
    }
  }

  /** Compacting, appending any messages and compacting again equals one compaction of the
      whole; this holds for arguments in any spelling, not only canonical text. */
  lemma IncrementalIsBatch(ms: seq<ChatMessage>, more: seq<ChatMessage>)
    ensures Compacted(Compacted(ms) + more) == Compacted(ms + more)
    ensures Cutoff(Compacted(ms) + more) == Cutoff(ms + more)
  {
    hide FoldInflight, FoldFirst, ToolIndices;
    CutoffGrows(ms, more);
    var c := Cutoff(ms);
    FoldFirstAt(ms, c);
    FoldFirstAt(ms + more, c);
    assert Compacted(ms) + more == FoldFirst(ms + more, c);
    CompactAfterFolding(ms + more, c);
  }

  // ---------- over a whole turn ----------

  function Flatten(batches: seq<seq<ChatMessage>>): seq<ChatMessage>
  {
    if batches == [] then [] else Flatten(batches[..|batches| - 1]) + batches[|batches| - 1]
  }

  /** The message list after each batch was appended and then compacted. */
  function Rounds(batches: seq<seq<ChatMessage>>): seq<ChatMessage>
  {
    if batches == [] then [] else Compacted(Rounds(batches[..|batches| - 1]) + batches[|batches| - 1])
  }

  lemma {:induction false} RoundsAreBatch(batches: seq<seq<ChatMessage>>)
    ensures Rounds(batches) == Compacted(Flatten(batches))
  {
    hide FoldInflight, FoldFirst, ToolIndices;
    if batches == [] {
    } else {
      RoundsAreBatch(batches[..|batches| - 1]);
      IncrementalIsBatch(Flatten(batches[..|batches| - 1]), batches[|batches| - 1]);
    }
  }

  lemma {:induction false} FlattenPrefix(batches: seq<seq<ChatMessage>>, k: nat)
    requires k <= |batches|
    ensures Flatten(batches[..k]) <= Flatten(batches)
    decreases |batches| - k
  {
    if k == |batches| {
      assert batches[..k] == batches;
    } else {
      FlattenPrefix(batches[..|batches| - 1], k);
      assert batches[..|batches| - 1][..k] == batches[..k];
    }
  }

  /** Over a whole turn each message is rewritten at most once. After any round a message reads
      either as it was appended (exactly from the cutoff on) or folded, and what is before the
      cutoff is frozen: every later round shows the same prefix. */
  lemma PrefixFrozen(batches: seq<seq<ChatMessage>>, k: nat, i: nat)
    requires k <= |batches| && i < |Flatten(batches[..k])|
    ensures |Rounds(batches[..k])| == |Flatten(batches[..k])| <= |Rounds(batches)| == |Flatten(batches)|
    ensures Rounds(batches[..k])[i] ==
      if i < Cutoff(Flatten(batches[..k])) then FoldInflight(Flatten(batches)[i]) else Flatten(batches)[i]
    ensures i < Cutoff(Flatten(batches[..k])) ==> Rounds(batches)[i] == Rounds(batches[..k])[i]
  {
    hide FoldInflight, FoldFirst, ToolIndices, Flatten, Rounds;
    var part, whole := Flatten(batches[..k]), Flatten(batches);
    FlattenPrefix(batches, k);
    RoundsAreBatch(batches);
    RoundsAreBatch(batches[..k]);
    FoldFirstAt(part, Cutoff(part));
    FoldFirstAt(whole, Cutoff(whole));
    assert whole == part + whole[|part|..];
    CutoffGrows(part, whole[|part|..]);
  }

  // ---------- when the prefix of the requests is stable ----------

  /** No text, argument string or reasoning of the message is long enough to be folded. */
  predicate NothingToFold(m: ChatMessage)
  {
    (m.content.Some? && m.content.value.Text? ==> |m.content.value.text| <= 1000)
    && (m.toolCalls.Some? ==> !AnyOversized(m.toolCalls.value, INFLIGHT_ARG_STRING_KEEP))
    && ReasoningChars(m) <= INFLIGHT_ARG_STRING_KEEP
  }

  lemma FoldCallChanges(c: ToolCall, max: nat)
    requires max >= 39
    ensures FoldCall(c, max) == c <==> !(|c.arguments.text| > max && LongestArgument(c.arguments) > max)
  {
    if c.arguments.value.Some? {
      HitIffTooLong(c.arguments.value.value, max);
      ShrinkShortens(c.arguments.value.value, max);
    }
  }

  lemma {:induction false} FoldCallsChange(calls: seq<ToolCall>, max: nat)
    requires max >= 39
    ensures FoldCalls(calls, max) == calls <==> !AnyOversized(calls, max)
  {
    hide *;
    if calls == [] {
      NoCalls(max);
    } else {
      var front, c := calls[..|calls| - 1], calls[|calls| - 1];
      FoldCallsChange(front, max);
      FoldCallChanges(c, max);
      LastCall(calls, max);
      assert calls == front + [c];
      SameParts(FoldCalls(front, max), front, FoldCall(c, max), c);
    }
  }

  lemma NoCalls(max: nat)
    ensures FoldCalls([], max) == [] && !AnyOversized([], max)
  {
  }

  lemma SameParts(a: seq<ToolCall>, b: seq<ToolCall>, x: ToolCall, y: ToolCall)
    requires |a| == |b|
    ensures a + [x] == b + [y] <==> a == b && x == y
  {
    if a + [x] == b + [y] {
      assert a == (a + [x])[..|a|] && b == (b + [y])[..|b|];
      assert x == (a + [x])[|a|] && y == (b + [y])[|b|];
    }
  }

  lemma LastCall(calls: seq<ToolCall>, max: nat)
    requires calls != []
    ensures var front, c := calls[..|calls| - 1], calls[|calls| - 1];
      FoldCalls(calls, max) == FoldCalls(front, max) + [FoldCall(c, max)]
      && (AnyOversized(calls, max) <==>
            AnyOversized(front, max) || (|c.arguments.text| > max && LongestArgument(c.arguments) > max))
  {
    hide FoldCall, LongestArgument;
  }

  /** Folding changes a message exactly when something in it is too long. */
  lemma FoldInflightChanges(m: ChatMessage)
    ensures FoldInflight(m) == m <==> NothingToFold(m)
  {
    hide FoldCalls, ElisionNote, AnyOversized;
    if m.toolCalls.Some? { FoldCallsChange(m.toolCalls.value, INFLIGHT_ARG_STRING_KEEP); }
    if m.reasoning.Some? { UsizeDigits(|m.reasoning.value|); }
  }

  /** One request is a prefix of the next exactly when no message that the cutoff moves past has
      anything to fold: from `ms` to `ms + more` the prefix is stable then, and only then. */
  lemma PrefixStableIff(ms: seq<ChatMessage>, more: seq<ChatMessage>)
    ensures Compacted(ms) <= Compacted(ms + more) <==>
      forall i :: Cutoff(ms) <= i < Cutoff(ms + more) && i < |ms| ==> NothingToFold(ms[i])
  {
    hide FoldInflight, NothingToFold, FoldFirst, Cutoff;
    CutoffGrows(ms, more);
    FoldFirstAt(ms, Cutoff(ms));
    FoldFirstAt(ms + more, Cutoff(ms + more));
    forall i | 0 <= i < |ms| ensures Compacted(ms)[i] == Compacted(ms + more)[i] <==>
      (Cutoff(ms) <= i < Cutoff(ms + more) ==> NothingToFold(ms[i]))
    {
      FoldInflightChanges(ms[i]);
      assert (ms + more)[i] == ms[i];
    }
  }
}
