/** Pruning a conversation history to the request budget: slice to the newest turns, fold each
    message, drop whole turns, then shrink the largest payload until the rest fits. */
module Prune {
  import opened Text
  import opened Protocol
  import opened Payload
  import opened Turns

  // ---------- step 2: slice at a turn boundary ----------

  function RetainedStart(ms: seq<ChatMessage>, maxTurns: nat): (i: nat)
    requires maxTurns >= 1
    ensures i <= |ms|
  {
    var u := UserIndices(ms);
    if |u| > maxTurns then u[|u| - maxTurns] else 0
  }

  // ---------- step 3: fold each message ----------

  function TruncateResult(m: ChatMessage, newest: bool): ChatMessage
  {
    match m.content
    case Some(Text(t)) =>
      if m.role != Tool then m
      else if newest then
        if |t| > 3500 then m.(content := Some(Text(Elide(OneStep, t, 1500, 600)))) else m
      else
        if |t| > 600 then m.(content := Some(Text(Elide(History, t, 250, 150)))) else m
    case _ => m
  }

  function FoldMessage(m: ChatMessage, newest: bool): ChatMessage
  {
    var r := TruncateResult(m, newest);
    if newest then r else FoldReasoning(FoldArguments(r, ARG_STRING_KEEP), ARG_STRING_KEEP)
  }

  /** Messages before `last` are folded as old ones, the rest as the newest turn. */
  function FoldAll(ms: seq<ChatMessage>, last: nat): (r: seq<ChatMessage>)
    ensures |r| == |ms|
  {
    if ms == [] then []
    else FoldAll(ms[..|ms| - 1], last) + [FoldMessage(ms[|ms| - 1], |ms| - 1 >= last)]
  }

  lemma {:induction false} FoldAllAt(ms: seq<ChatMessage>, last: nat)
    ensures forall i :: 0 <= i < |ms| ==> FoldAll(ms, last)[i] == FoldMessage(ms[i], i >= last)
  {
    if ms == [] {
    } else {
      FoldAllAt(ms[..|ms| - 1], last);
    }
  }

  // ---------- step 4a: drop whole turns ----------

  /** How many leading messages are dropped, whole turns at a time, before the rest fits. */
  function DropPoint(ms: seq<ChatMessage>): (k: nat)
    ensures k <= |ms|
    decreases Users(ms)
  {
    if TotalChars(ms) <= MAX_TOTAL_CHARS || Users(ms) <= 1 then 0
    else
      CutAtTurn(ms, 1);
      var c := UserIndices(ms)[1];
      c + DropPoint(ms[c..])
  }

  // ---------- step 4b: shrink the largest payload ----------

  datatype PayloadKind = OfResult | OfArguments | OfReasoning

  datatype Candidate = Candidate(index: nat, size: nat, kind: PayloadKind)

  function PayloadSize(m: ChatMessage, kind: PayloadKind): nat
  {
    match kind
    case OfResult => if m.role == Tool then ContentChars(m) else 0
    case OfArguments => if m.toolCalls.Some? then LongestOfCalls(m.toolCalls.value) else 0
    case OfReasoning => ReasoningChars(m)
  }

  const FLOOR: nat := 2 * HARD_TOOL_FLOOR

  /** The first payload of one kind that is larger than all before it and over the floor. */
  function Worst(ms: seq<ChatMessage>, kind: PayloadKind): Option<Candidate>
  {
    if ms == [] then None
    else
      var w := Worst(ms[..|ms| - 1], kind);
      var n := PayloadSize(ms[|ms| - 1], kind);
      if n > FLOOR && (w.None? || n > w.value.size) then Some(Candidate(|ms| - 1, n, kind)) else w
  }

  /** Of two candidates the larger; the later one on a tie. */
  function Later(a: Option<Candidate>, b: Option<Candidate>): Option<Candidate>
  {
    if a.None? then b else if b.None? then a else if b.value.size >= a.value.size then b else a
  }

  function Pick(ms: seq<ChatMessage>): Option<Candidate>
  {
    Later(Later(Worst(ms, OfResult), Worst(ms, OfArguments)), Worst(ms, OfReasoning))
  }

  /** A tool result cut to about half, head and tail around a note. */
  function Halve(t: Str): (r: Str)
    requires |t| > FLOOR
    ensures 400 <= |r| < |t|
  {
    var target := |t| / 2;
    var head := target * 3 / 4;
    Elide(History, t, head, target - head)
  }

  function ShrinkMessage(m: ChatMessage, kind: PayloadKind): ChatMessage
  {
    match kind
    case OfArguments => FoldArguments(m, ARG_STRING_KEEP)
    case OfReasoning => FoldReasoning(m, ARG_STRING_KEEP)
    case OfResult =>
      match m.content
      case Some(Text(t)) => if |t| > FLOOR then m.(content := Some(Text(Halve(t)))) else m
      case _ => m
  }

  lemma {:induction false} WorstIsFirstLargest(ms: seq<ChatMessage>, kind: PayloadKind)
    ensures Worst(ms, kind).None? ==> forall i :: 0 <= i < |ms| ==> PayloadSize(ms[i], kind) <= FLOOR
    ensures Worst(ms, kind).Some? ==>
      var c := Worst(ms, kind).value;
      c.kind == kind && c.index < |ms| && PayloadSize(ms[c.index], kind) == c.size > FLOOR
    ensures Worst(ms, kind).Some? ==> forall i :: 0 <= i < |ms| ==> PayloadSize(ms[i], kind) <= Worst(ms, kind).value.size
    ensures Worst(ms, kind).Some? ==> forall i :: 0 <= i < Worst(ms, kind).value.index ==>
      PayloadSize(ms[i], kind) < Worst(ms, kind).value.size
  {
    if ms != [] {
      var front := ms[..|ms| - 1];
      WorstIsFirstLargest(front, kind);
      assert forall i :: 0 <= i < |front| ==> ms[i] == front[i];
    }
  }

  ghost predicate AtFloor(ms: seq<ChatMessage>)
  {
    forall i, kind :: 0 <= i < |ms| ==> PayloadSize(ms[i], kind) <= FLOOR
  }

  /** On a tie reasoning goes before arguments, and arguments before results. */
  function Rank(kind: PayloadKind): nat
  {
    match kind
    case OfResult => 0
    case OfArguments => 1
    case OfReasoning => 2
  }

  /** The candidate is a largest payload of all kinds, of the highest rank among these and the first
      of its kind; there is none exactly when every payload is at the floor. */
  lemma PickIsLargest(ms: seq<ChatMessage>)
    ensures Pick(ms).None? <==> AtFloor(ms)
    ensures Pick(ms).Some? ==>
      var c := Pick(ms).value;
      c.index < |ms| && PayloadSize(ms[c.index], c.kind) == c.size > FLOOR
    ensures Pick(ms).Some? ==> forall i, kind :: 0 <= i < |ms| ==> PayloadSize(ms[i], kind) <= Pick(ms).value.size
    ensures Pick(ms).Some? ==>
      forall i, kind :: 0 <= i < |ms| && (Rank(kind) > Rank(Pick(ms).value.kind)
                                          || (kind == Pick(ms).value.kind && i < Pick(ms).value.index)) ==>
        PayloadSize(ms[i], kind) < Pick(ms).value.size
  {
    WorstIsFirstLargest(ms, OfResult);
    WorstIsFirstLargest(ms, OfArguments);
    WorstIsFirstLargest(ms, OfReasoning);
    if Pick(ms).None? {
      forall i, kind | 0 <= i < |ms| ensures PayloadSize(ms[i], kind) <= FLOOR {
        match kind case OfResult => case OfArguments => case OfReasoning =>
      }
    } else {
      forall i, kind | 0 <= i < |ms|
        ensures PayloadSize(ms[i], kind) <= Pick(ms).value.size
        ensures Rank(kind) > Rank(Pick(ms).value.kind) || (kind == Pick(ms).value.kind && i < Pick(ms).value.index) ==>
          PayloadSize(ms[i], kind) < Pick(ms).value.size
      {
        match kind case OfResult => case OfArguments => case OfReasoning =>
      }
      var c := Pick(ms).value;
      assert PayloadSize(ms[c.index], c.kind) > FLOOR;
    }
  }

  /** The shrinking pass changes something: it found a candidate, and for arguments some call
      was folded. */
  predicate Shrinks(ms: seq<ChatMessage>)
  {
    var p := Pick(ms);
    p.Some? && p.value.index < |ms| &&
    (p.value.kind == OfArguments ==>
      ms[p.value.index].toolCalls.Some? && AnyOversized(ms[p.value.index].toolCalls.value, ARG_STRING_KEEP))
  }

  function ShrinkStep(ms: seq<ChatMessage>): (r: seq<ChatMessage>)
    ensures |r| == |ms|
  {
    var p := Pick(ms);
    if p.None? || p.value.index >= |ms| then ms
    else ms[p.value.index := ShrinkMessage(ms[p.value.index], p.value.kind)]
  }

  /** Shrink until the total fits, nothing is left to shrink, or a pass frees nothing. */
  function ShrinkToFit(ms: seq<ChatMessage>): (r: seq<ChatMessage>)
    ensures |r| == |ms|
    decreases TotalChars(ms)
  {
    if TotalChars(ms) <= MAX_TOTAL_CHARS then ms
    else if !Shrinks(ms) then ShrinkStep(ms)
    else if TotalChars(ShrinkStep(ms)) >= TotalChars(ms) then ShrinkStep(ms)
    else ShrinkToFit(ShrinkStep(ms))
  }

  // ---------- the whole pipeline ----------

  function Sliced(raw: seq<ChatMessage>, maxTurns: nat): seq<ChatMessage>
    requires maxTurns >= 1
  {
    raw[RetainedStart(raw, maxTurns)..]
  }

  function Folded(ms: seq<ChatMessage>): seq<ChatMessage>
  {
    FoldAll(ms, LastUser(ms))
  }

  function Dropped(ms: seq<ChatMessage>): seq<ChatMessage>
  {
    ms[DropPoint(ms)..]
  }

  function Pruned(raw: seq<ChatMessage>, maxTurns: nat): seq<ChatMessage>
    requires maxTurns >= 1
  {
    if Users(raw) == 0 then raw
    else ShrinkToFit(Dropped(Folded(Sliced(raw, maxTurns))))
  }

  // ---------- the procedure ----------

  method TotalOf(ms: seq<ChatMessage>) returns (n: nat)
    ensures n == TotalChars(ms)
  {
    n := 0;
    for i := 0 to |ms|
      invariant n == TotalChars(ms[..i])
    {
      assert ms[..i + 1][..i] == ms[..i];
      n := n + MessageChars(ms[i]);
    }
    assert ms[..|ms|] == ms;
  }

  /** One pass over the slice: scan for the three kinds of payload, and reduce the winner where it stands. */
  method ShrinkLargestPayload(messages: array<ChatMessage>) returns (hit: bool)
    modifies messages
    ensures messages[..] == ShrinkStep(old(messages[..]))
    ensures hit <==> Shrinks(old(messages[..]))
  {
    ghost var ms := messages[..];
    var worstResult: Option<Candidate> := None;
    var worstArg: Option<Candidate> := None;
    var worstReasoning: Option<Candidate> := None;
    var i := 0;
    while i < messages.Length
      invariant 0 <= i <= messages.Length && messages[..] == ms
      invariant worstResult == Worst(ms[..i], OfResult)
      invariant worstArg == Worst(ms[..i], OfArguments)
      invariant worstReasoning == Worst(ms[..i], OfReasoning)
    {
      var m := messages[i];
      assert m == ms[i] && ms[..i + 1][..i] == ms[..i];
      var n := PayloadSize(m, OfResult);
      if n > FLOOR && (worstResult.None? || n > worstResult.value.size) {
        worstResult := Some(Candidate(i, n, OfResult));
      }
      if m.toolCalls.Some? {
        worstArg := ScanCalls(m.toolCalls.value, i, worstArg);
      }
      n := PayloadSize(m, OfReasoning);
      if n > FLOOR && (worstReasoning.None? || n > worstReasoning.value.size) {
        worstReasoning := Some(Candidate(i, n, OfReasoning));
      }
      i := i + 1;
    }
    assert ms[..|ms|] == ms;
    PickIsLargest(ms);
    var worst := Later(Later(worstResult, worstArg), worstReasoning);
    if worst.None? {
      return false;
    }
    var idx := worst.value.index;
    match worst.value.kind {
      case OfArguments =>
        messages[idx], hit := ShrinkMessageArguments(messages[idx], ARG_STRING_KEEP);
      case OfReasoning =>
        messages[idx] := FoldReasoning(messages[idx], ARG_STRING_KEEP);
        hit := true;
      case OfResult =>
        messages[idx] := ShrinkMessage(messages[idx], OfResult);
        hit := true;
    }
  }

  /** The inner scan over the calls of message `i`. */
  method ScanCalls(calls: seq<ToolCall>, i: nat, before: Option<Candidate>) returns (worst: Option<Candidate>)
    ensures worst ==
      var n := LongestOfCalls(calls);
      if n > FLOOR && (before.None? || n > before.value.size) then Some(Candidate(i, n, OfArguments)) else before
  {
    worst := before;
    for j := 0 to |calls|
      invariant worst ==
        var n := LongestOfCalls(calls[..j]);
        if n > FLOOR && (before.None? || n > before.value.size) then Some(Candidate(i, n, OfArguments)) else before
    {
      assert calls[..j + 1][..j] == calls[..j];
      var n := LongestArgument(calls[j].arguments);
      if n > FLOOR && (worst.None? || n > worst.value.size) {
        worst := Some(Candidate(i, n, OfArguments));
      }
    }
    assert calls[..|calls|] == calls;
  }

  method PruneHistoryMessages(rawMessages: seq<ChatMessage>, maxTurns: nat) returns (r: seq<ChatMessage>)
    requires maxTurns >= 1
    ensures r == Pruned(rawMessages, maxTurns)
    ensures Users(rawMessages) == 0 ==> r == rawMessages
  {
    if rawMessages == [] {
      return rawMessages;
    }
    var userIndices := CollectUserIndices(rawMessages);
    if |userIndices| == 0 {
      return rawMessages;
    }
    var retainedStart := RetainedStart(rawMessages, maxTurns);
    var sliced := FoldSlice(rawMessages[retainedStart..]);
    sliced := DropOldTurns(sliced);
    r := FitBudget(sliced);
  }

  /** Step 4b: shrink the largest payload, in place, until the rest fits. */
  method FitBudget(sliced: seq<ChatMessage>) returns (r: seq<ChatMessage>)
    ensures r == ShrinkToFit(sliced)
  {
    var messages := new ChatMessage[|sliced|](i requires 0 <= i < |sliced| => sliced[i]);
    assert messages[..] == sliced;
    while true
      invariant ShrinkToFit(messages[..]) == ShrinkToFit(sliced)
      decreases TotalChars(messages[..])
    {
      var before := TotalOf(messages[..]);
      if before <= MAX_TOTAL_CHARS {
        break;
      }
      ghost var was := messages[..];
      var hit := ShrinkLargestPayload(messages);
      if !hit {
        return messages[..];
      }
      var after := TotalOf(messages[..]);
      if after >= before {
        return messages[..];
      }
    }
    r := messages[..];
  }

  /** Steps 3 and 3b, message by message. */
  method FoldSlice(ms: seq<ChatMessage>) returns (sliced: seq<ChatMessage>)
    ensures sliced == Folded(ms)
  {
    sliced := ms;
    var slicedUserIndices := CollectUserIndices(sliced);
    var last := if slicedUserIndices == [] then 0 else slicedUserIndices[|slicedUserIndices| - 1];
    var idx := 0;
    while idx < |sliced|
      invariant 0 <= idx <= |sliced| == |ms|
      invariant forall i :: 0 <= i < idx ==> sliced[i] == TruncateResult(ms[i], i >= last)
      invariant forall i :: idx <= i < |ms| ==> sliced[i] == ms[i]
    {
      sliced := sliced[idx := TruncateResult(sliced[idx], idx >= last)];
      idx := idx + 1;
    }
    idx := 0;
    while idx < |sliced| && idx < last
      invariant 0 <= idx <= |sliced| == |ms|
      invariant idx <= last || idx == 0
      invariant forall i :: 0 <= i < idx ==> sliced[i] == FoldMessage(ms[i], false)
      invariant forall i :: idx <= i < |ms| ==> sliced[i] == TruncateResult(ms[i], i >= last)
    {
      var m, _ := ShrinkMessageArguments(sliced[idx], ARG_STRING_KEEP);
      sliced := sliced[idx := FoldReasoning(m, ARG_STRING_KEEP)];
      idx := idx + 1;
    }
    FoldAllAt(ms, last);
    assert sliced == Folded(ms);
  }

  /** Step 4a: drain the oldest whole turn until the rest fits or one turn is left. */
  method DropOldTurns(ms: seq<ChatMessage>) returns (sliced: seq<ChatMessage>)
    ensures sliced == Dropped(ms)
  {
    sliced := ms;
    ghost var cut := 0;
    while true
      invariant 0 <= cut <= |ms| && sliced == ms[cut..]
      invariant DropPoint(ms) == cut + DropPoint(sliced)
      decreases Users(sliced)
    {
      var total := TotalOf(sliced);
      if total <= MAX_TOTAL_CHARS {
        break;
      }
      var uIndices := CollectUserIndices(sliced);
      if |uIndices| <= 1 {
        break;
      }
      CutAtTurn(sliced, 1);
      assert sliced[uIndices[1]..] == ms[cut + uIndices[1]..];
      cut := cut + uIndices[1];
      sliced := sliced[uIndices[1]..];
    }
  }
}
