/** What a message weighs against the request budget, and the two folds that make the
    arguments and the reasoning of one message lighter. */
module Payload {
  import opened Text
  import opened Json
  import opened Protocol

  const MAX_TOTAL_CHARS: nat := 48_000
  const HARD_TOOL_FLOOR: nat := 400
  const ARG_STRING_KEEP: nat := 400

  // ---------- weight ----------

  function ArgumentChars(calls: seq<ToolCall>): nat
  {
    if calls == [] then 0
    else ArgumentChars(calls[..|calls| - 1]) + |calls[|calls| - 1].arguments.text|
  }

  function ContentChars(m: ChatMessage): nat
  {
    match m.content
    case Some(Text(t)) => |t|
    case _ => 0
  }

  function CallChars(m: ChatMessage): nat
  {
    if m.toolCalls.Some? then ArgumentChars(m.toolCalls.value) else 0
  }

  function ReasoningChars(m: ChatMessage): nat
  {
    if m.reasoning.Some? then |m.reasoning.value| else 0
  }

  function MessageChars(m: ChatMessage): nat
  {
    ContentChars(m) + CallChars(m) + ReasoningChars(m)
  }

  function TotalChars(ms: seq<ChatMessage>): nat
  {
    if ms == [] then 0 else TotalChars(ms[..|ms| - 1]) + MessageChars(ms[|ms| - 1])
  }

  /** What a message weighs: the characters of its text, of the arguments of all its calls and of its
      reasoning, whatever its role. */
  lemma MessageWeighs(role: Role, t: Str, calls: seq<ToolCall>, id: Option<Str>, reasoning: Str)
    ensures MessageChars(ChatMessage(role, Some(Text(t)), Some(calls), id, Some(reasoning))) == |t| + ArgumentChars(calls) + |reasoning|
    ensures MessageChars(ChatMessage(role, Some(Text(t)), None, id, None)) == |t|
    ensures MessageChars(ChatMessage(role, None, Some(calls), id, None)) == ArgumentChars(calls)
    ensures MessageChars(ChatMessage(role, None, None, id, Some(reasoning))) == |reasoning|
  {
  }

  /** Every call counts. */
  lemma {:induction false} ArgumentsWeigh(a: seq<ToolCall>, c: ToolCall, b: seq<ToolCall>)
    ensures ArgumentChars(a + [c] + b) == ArgumentChars(a) + |c.arguments.text| + ArgumentChars(b)
  {
    if b == [] {
      assert a + [c] + b == a + [c];
      assert (a + [c])[..|a|] == a;
    } else {
      ArgumentsWeigh(a, c, b[..|b| - 1]);
      assert (a + [c] + b)[..|a + [c] + b| - 1] == a + [c] + b[..|b| - 1];
    }
  }

  lemma {:induction false} TotalOfConcat(a: seq<ChatMessage>, b: seq<ChatMessage>)
    ensures TotalChars(a + b) == TotalChars(a) + TotalChars(b)
  {
    if b == [] {
      assert a + b == a;
    } else {
      assert (a + b)[..|a + b| - 1] == a + b[..|b| - 1];
      TotalOfConcat(a, b[..|b| - 1]);
    }
  }

  lemma TotalOfUpdate(ms: seq<ChatMessage>, i: nat, m: ChatMessage)
    requires i < |ms|
    ensures TotalChars(ms[i := m]) + MessageChars(ms[i]) == TotalChars(ms) + MessageChars(m)
  {
    assert ms == ms[..i] + ([ms[i]] + ms[i + 1..]);
    assert ms[i := m] == ms[..i] + ([m] + ms[i + 1..]);
    TotalOfConcat(ms[..i], [ms[i]] + ms[i + 1..]);
    TotalOfConcat(ms[..i], [m] + ms[i + 1..]);
    TotalOfConcat([ms[i]], ms[i + 1..]);
    TotalOfConcat([m], ms[i + 1..]);
    assert [ms[i]][..0] == [] && [m][..0] == [];
  }

  // ---------- folding arguments ----------

  function LongestArgument(a: Arguments): nat
  {
    if a.value.Some? then Longest(a.value.value) else 0
  }

  /** The longest string value in any of the calls. */
  function LongestOfCalls(calls: seq<ToolCall>): nat
  {
    if calls == [] then 0
    else Max(LongestOfCalls(calls[..|calls| - 1]), LongestArgument(calls[|calls| - 1].arguments))
  }

  /** The folded arguments, or `None` when nothing needed folding. */
  function ShrinkArguments(a: Arguments, max: nat): Option<Arguments>
  {
    if a.value.Some? && Hit(a.value.value, max) then
      var v := Shrink(a.value.value, max);
      Some(Arguments(Render(v), Some(v)))
    else
      None
  }

  function FoldCall(c: ToolCall, max: nat): ToolCall
  {
    if |c.arguments.text| <= max then c
    else
      match ShrinkArguments(c.arguments, max)
      case Some(smaller) => c.(arguments := smaller)
      case None => c
  }

  function FoldCalls(calls: seq<ToolCall>, max: nat): (r: seq<ToolCall>)
    ensures |r| == |calls|
    ensures forall i :: 0 <= i < |calls| ==> r[i] == FoldCall(calls[i], max)
  {
    if calls == [] then []
    else FoldCalls(calls[..|calls| - 1], max) + [FoldCall(calls[|calls| - 1], max)]
  }

  function FoldArguments(m: ChatMessage, max: nat): ChatMessage
  {
    if m.toolCalls.Some? then m.(toolCalls := Some(FoldCalls(m.toolCalls.value, max))) else m
  }

  function FoldReasoning(m: ChatMessage, max: nat): ChatMessage
  {
    if m.reasoning.Some? && |m.reasoning.value| > max then
      UsizeDigits(|m.reasoning.value|);
      m.(reasoning := Some(ReasoningMarker(|m.reasoning.value|)))
    else m
  }

  /** Whether folding these calls replaces anything. */
  predicate AnyOversized(calls: seq<ToolCall>, max: nat)
  {
    calls != [] &&
    var c := calls[|calls| - 1];
    (AnyOversized(calls[..|calls| - 1], max) ||
      (|c.arguments.text| > max && LongestArgument(c.arguments) > max))
  }

  lemma AnyOversizedStep(calls: seq<ToolCall>, k: nat, max: nat)
    requires k < |calls|
    ensures var c := calls[k];
      AnyOversized(calls[..k + 1], max)
      == (AnyOversized(calls[..k], max) || (|c.arguments.text| > max && ShrinkArguments(c.arguments, max).Some?))
  {
    assert calls[..k + 1][..k] == calls[..k];
    if calls[k].arguments.value.Some? { HitIffTooLong(calls[k].arguments.value.value, max); }
  }

  method ShrinkCall(c: ToolCall, max: nat) returns (r: ToolCall, hit: bool)
    ensures r == FoldCall(c, max)
    ensures hit <==> |c.arguments.text| > max && ShrinkArguments(c.arguments, max).Some?
  {
    r, hit := c, false;
    if |c.arguments.text| > max {
      var smaller := ShrinkArguments(c.arguments, max);
      if smaller.Some? {
        r, hit := c.(arguments := smaller.value), true;
      }
    }
  }

  /** The first `k` calls are folded, the others as they were. */
  ghost predicate FoldedUpTo(before: seq<ToolCall>, calls: seq<ToolCall>, k: nat, max: nat)
  {
    k <= |calls| == |before|
    && (forall i :: 0 <= i < k ==> calls[i] == FoldCall(before[i], max))
    && (forall i :: k <= i < |before| ==> calls[i] == before[i])
  }

  lemma FoldOneMore(before: seq<ToolCall>, calls: seq<ToolCall>, k: nat, max: nat)
    requires FoldedUpTo(before, calls, k, max) && k < |calls|
    ensures calls[k] == before[k]
    ensures FoldedUpTo(before, calls[k := FoldCall(before[k], max)], k + 1, max)
  {
    hide FoldCall;
  }

  lemma FoldedAll(before: seq<ToolCall>, calls: seq<ToolCall>, max: nat)
    ensures FoldedUpTo(before, before, 0, max)
    ensures FoldedUpTo(before, calls, |before|, max) ==> calls == FoldCalls(before, max)
  {
    hide FoldCall;
  }

  /** The loop over the calls of a message, with its flag. */
  method ShrinkMessageArguments(m: ChatMessage, max: nat) returns (r: ChatMessage, changed: bool)
    ensures r == FoldArguments(m, max)
    ensures changed <==> m.toolCalls.Some? && AnyOversized(m.toolCalls.value, max)
  {
    hide FoldCall, FoldCalls, FoldedUpTo, ShrinkArguments;
    if m.toolCalls.None? {
      return m, false;
    }
    ghost var before := m.toolCalls.value;
    var calls := m.toolCalls.value;
    changed := false;
    var k := 0;
    FoldedAll(before, calls, max);
    while k < |calls|
      invariant k <= |calls| == |before| && FoldedUpTo(before, calls, k, max)
      invariant changed <==> AnyOversized(before[..k], max)
    {
      AnyOversizedStep(before, k, max);
      FoldOneMore(before, calls, k, max);
      var folded, hit := ShrinkCall(calls[k], max);
      calls := calls[k := folded];
      changed := changed || hit;
      k := k + 1;
    }
    assert before[..|before|] == before;
    FoldedAll(before, calls, max);
    r := m.(toolCalls := Some(calls));
  }

  // ---------- what the folds guarantee ----------

  /** Serialising the parsed document again is no longer than the text it came from: true of
      every document the journal loader prints, and of text with insignificant spaces. */
  ghost predicate Compact(a: Arguments)
  {
    a.value.Some? ==> |Render(a.value.value)| <= |a.text|
  }

  ghost predicate CompactMessage(m: ChatMessage)
  {
    m.toolCalls.Some? ==> forall i :: 0 <= i < |m.toolCalls.value| ==> Compact(m.toolCalls.value[i].arguments)
  }

  ghost predicate CompactMessages(ms: seq<ChatMessage>)
  {
    forall i :: 0 <= i < |ms| ==> CompactMessage(ms[i])
  }

  lemma FoldCallShortens(c: ToolCall, max: nat)
    requires max >= 39 && Compact(c.arguments)
    ensures var r := FoldCall(c, max).arguments;
      Compact(r) && |r.text| <= |c.arguments.text| && LongestArgument(r) <= max
      && (LongestArgument(c.arguments) > max ==> |r.text| < |c.arguments.text|)
  {
    if c.arguments.value.Some? {
      var v := c.arguments.value.value;
      HitIffTooLong(v, max);
      ShrinkShortens(v, max);
      ShrinkReachesLimit(v, max);
      LongestFitsText(v);
    }
  }

  /** Folding twice with one limit is folding once, whether or not the text was canonical. */
  lemma FoldCallTwice(c: ToolCall, max: nat)
    requires max >= 39
    ensures FoldCall(FoldCall(c, max), max) == FoldCall(c, max)
  {
    if c.arguments.value.Some? {
      var v := c.arguments.value.value;
      ShrinkReachesLimit(v, max);
      HitIffTooLong(Shrink(v, max), max);
    }
  }

  lemma FoldArgumentsTwice(m: ChatMessage, max: nat)
    requires max >= 39
    ensures FoldArguments(FoldArguments(m, max), max) == FoldArguments(m, max)
  {
    if m.toolCalls.Some? {
      var once := FoldCalls(m.toolCalls.value, max);
      forall i | 0 <= i < |once| ensures FoldCall(once[i], max) == once[i] {
        FoldCallTwice(m.toolCalls.value[i], max);
      }
      assert FoldCalls(once, max) == once;
    }
  }

  lemma FoldReasoningTwice(m: ChatMessage, max: nat)
    requires max >= 40
    ensures FoldReasoning(FoldReasoning(m, max), max) == FoldReasoning(m, max)
    ensures ReasoningChars(FoldReasoning(m, max)) <= max
  {
    if m.reasoning.Some? { UsizeDigits(|m.reasoning.value|); }
  }

  lemma {:induction false} FoldCallsShortens(calls: seq<ToolCall>, max: nat)
    requires max >= 39
    requires forall i :: 0 <= i < |calls| ==> Compact(calls[i].arguments)
    ensures var r := FoldCalls(calls, max);
      ArgumentChars(r) <= ArgumentChars(calls) && LongestOfCalls(r) <= max
      && (LongestOfCalls(calls) > max ==> ArgumentChars(r) < ArgumentChars(calls))
      && forall i :: 0 <= i < |r| ==> Compact(r[i].arguments)
  {
    if calls == [] {
    } else {
      var front, c := calls[..|calls| - 1], calls[|calls| - 1];
      FoldCallsShortens(front, max);
      FoldCallShortens(c, max);
      var r := FoldCalls(calls, max);
      assert r[..|r| - 1] == FoldCalls(front, max) && r[|r| - 1] == FoldCall(c, max);
    }
  }

  // ---------- what a folded part reads ----------

  /** A string value over the limit becomes a short marker with its length; others stay. */
  ghost predicate LeafFolded(a: Str, b: Str, max: nat)
  {
    if |a| > max then |b| <= 39 && HoldsCount(b, |a|) else b == a
  }

  /** Folded arguments print a document with the same keys, nesting and scalars. */
  ghost predicate CallFolded(c: ToolCall, r: ToolCall, max: nat)
  {
    r.id == c.id && r.name == c.name &&
    if c.arguments.value.Some? && |c.arguments.text| > max && AnyLong(Leaves(c.arguments.value.value), max) then
      r.arguments.value.Some?
      && var v, u := c.arguments.value.value, r.arguments.value.value;
         r.arguments.text == Render(u) && Skeleton(u) == Skeleton(v) && |Leaves(u)| == |Leaves(v)|
         && forall l :: 0 <= l < |Leaves(v)| ==> LeafFolded(Leaves(v)[l], Leaves(u)[l], max)
    else r.arguments == c.arguments
  }

  ghost predicate CallsFolded(m: ChatMessage, r: ChatMessage, max: nat)
  {
    if m.toolCalls.None? then r.toolCalls.None?
    else
      r.toolCalls.Some? && |r.toolCalls.value| == |m.toolCalls.value|
      && forall k :: 0 <= k < |m.toolCalls.value| ==> CallFolded(m.toolCalls.value[k], r.toolCalls.value[k], max)
  }

  ghost predicate ReasoningFolded(m: ChatMessage, r: ChatMessage, max: nat)
  {
    if m.reasoning.Some? && |m.reasoning.value| > max then
      r.reasoning.Some? && |r.reasoning.value| <= 40 && HoldsCount(r.reasoning.value, |m.reasoning.value|)
    else r.reasoning == m.reasoning
  }

  lemma FoldCallReads(c: ToolCall, max: nat)
    requires max >= 39
    ensures CallFolded(c, FoldCall(c, max), max)
  {
    hide Leaves, Shrink, Hit, Render, Skeleton, HoldsCount, AnyLong;
    if c.arguments.value.Some? {
      var v := c.arguments.value.value;
      HitIffAnyLong(v, max);
      ShrinkKeepsTree(v, max);
      forall l | 0 <= l < |Leaves(v)| ensures LeafFolded(Leaves(v)[l], Leaves(Shrink(v, max))[l], max) {
        MarkersCount(|Leaves(v)[l]|);
      }
    }
  }

  lemma FoldArgumentsReads(m: ChatMessage, max: nat)
    requires max >= 39
    ensures CallsFolded(m, FoldArguments(m, max), max)
  {
    hide FoldCall, CallFolded;
    if m.toolCalls.Some? {
      forall k | 0 <= k < |m.toolCalls.value| ensures CallFolded(m.toolCalls.value[k], FoldCall(m.toolCalls.value[k], max), max) {
        FoldCallReads(m.toolCalls.value[k], max);
      }
    }
  }

  lemma FoldReasoningReads(m: ChatMessage, max: nat)
    ensures ReasoningFolded(m, FoldReasoning(m, max), max)
  {
    hide HoldsCount;
    if m.reasoning.Some? {
      UsizeDigits(|m.reasoning.value|);
      MarkersCount(|m.reasoning.value|);
    }
  }

  // ---------- exactly what folding frees ----------

  /** What folding one call frees: the long strings' savings, less what printing the document
      again adds to the text. Negative when the text was shorter than the compact one by more. */
  function CallGain(c: ToolCall, max: nat): int
    requires max >= 39
  {
    if |c.arguments.text| > max && LongestArgument(c.arguments) > max then
      Saved(Leaves(c.arguments.value.value), max) + |c.arguments.text| - |Render(c.arguments.value.value)|
    else 0
  }

  function Gain(calls: seq<ToolCall>, max: nat): int
    requires max >= 39
  {
    if calls == [] then 0 else Gain(calls[..|calls| - 1], max) + CallGain(calls[|calls| - 1], max)
  }

  /** For any arguments, in any spelling, folding frees exactly the gain. */
  lemma {:induction false} FoldFreesGain(calls: seq<ToolCall>, max: nat)
    requires max >= 39
    ensures ArgumentChars(FoldCalls(calls, max)) + Gain(calls, max) == ArgumentChars(calls)
  {
    if calls == [] {
    } else {
      var front, c := calls[..|calls| - 1], calls[|calls| - 1];
      FoldFreesGain(front, max);
      if c.arguments.value.Some? {
        HitIffTooLong(c.arguments.value.value, max);
        ShrinkSaves(c.arguments.value.value, max);
      }
      var r := FoldCalls(calls, max);
      assert r[..|r| - 1] == FoldCalls(front, max) && r[|r| - 1] == FoldCall(c, max);
    }
  }

  /** `n` numbers spelled in three characters and printed in eight, then one string. */
  function Spelled(n: nat): string { if n == 0 then "" else "1e5," + Spelled(n - 1) }

  function Numbers(n: nat, last: Json): Items
  {
    if n == 0 then Item(last, NoItem) else Item(Number("100000.0"), Numbers(n - 1, last))
  }

  function Growing(n: nat, s: Str): Arguments
  {
    Arguments("[" + Spelled(n) + Quote(s) + "]", Some(Array(Numbers(n, String(s)))))
  }

  lemma {:induction false} NumbersPrint(n: nat, s: Str)
    ensures |RenderItems(Numbers(n, String(s)))| == 9 * n + |Quote(s)| && |Spelled(n)| == 4 * n
    ensures ItemLeaves(Numbers(n, String(s))) == [s] && LongestItem(Numbers(n, String(s))) == |s|
  {
    if n > 0 {
      NumbersPrint(n - 1, s);
      assert Numbers(n - 1, String(s)).Item?;
    }
  }

  /** A family on which folding frees nothing: enough such numbers outweigh any one string. */
  lemma GrowingArguments(c: ToolCall, n: nat, s: Str, max: nat)
    requires max >= 39 && |s| > max && c.arguments == Growing(n, s)
    ensures CallGain(c, max) == |Escape(s)| - |Marker(|s|)| - 5 * n
  {
    NumbersPrint(n, s);
    assert Saved([s], max) == |Escape(s)| - |Marker(|s|)|;
  }
}
