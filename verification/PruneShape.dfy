/** What pruning keeps: the conversation's shape, the text of users and assistant, the pairing
    of results with calls; and which turns survive. */
module PruneShape {
  import opened Text
  import opened Json
  import opened Protocol
  import opened Payload
  import opened Turns
  import opened Prune
  import opened PruneBudget

  // ---------- shape ----------

  function ErasedArguments(a: Arguments): Arguments
  {
    Arguments("", if a.value.Some? then Some(Skeleton(a.value.value)) else None)
  }

  function ErasedCalls(calls: seq<ToolCall>): (r: seq<ToolCall>)
    ensures |r| == |calls|
    ensures forall i :: 0 <= i < |calls| ==> r[i] == calls[i].(arguments := ErasedArguments(calls[i].arguments))
  {
    seq(|calls|, i requires 0 <= i < |calls| => calls[i].(arguments := ErasedArguments(calls[i].arguments)))
  }

  /** A message without its payload text: role, ids, tool names and the JSON skeleton of the
      arguments stay, and for every role but `tool` the content stays too. */
  function Erased(m: ChatMessage): ChatMessage
  {
    m.(content := if m.role == Tool && m.content.Some? && m.content.value.Text? then Some(Text("")) else m.content,
       toolCalls := if m.toolCalls.Some? then Some(ErasedCalls(m.toolCalls.value)) else None,
       reasoning := if m.reasoning.Some? then Some("") else None)
  }

  ghost predicate SameShape(a: seq<ChatMessage>, b: seq<ChatMessage>)
  {
    |a| == |b| && forall i :: 0 <= i < |a| ==> Erased(a[i]) == Erased(b[i])
  }

  lemma FoldArgumentsKeepsShape(m: ChatMessage, max: nat)
    ensures Erased(FoldArguments(m, max)) == Erased(m)
  {
    if m.toolCalls.Some? {
      var calls := m.toolCalls.value;
      forall i | 0 <= i < |calls|
        ensures ErasedArguments(FoldCall(calls[i], max).arguments) == ErasedArguments(calls[i].arguments)
      {
        if calls[i].arguments.value.Some? { ShrinkKeepsTree(calls[i].arguments.value.value, max); }
      }
      assert ErasedCalls(FoldCalls(calls, max)) == ErasedCalls(calls);
    }
  }

  lemma FoldMessageKeepsShape(m: ChatMessage, newest: bool)
    ensures Erased(FoldMessage(m, newest)) == Erased(m)
  {
    FoldArgumentsKeepsShape(TruncateResult(m, newest), ARG_STRING_KEEP);
  }

  lemma ShrinkStepKeepsShape(ms: seq<ChatMessage>)
    ensures SameShape(ShrinkStep(ms), ms)
  {
    PickIsLargest(ms);
    if Pick(ms).Some? {
      var c := Pick(ms).value;
      FoldArgumentsKeepsShape(ms[c.index], ARG_STRING_KEEP);
      assert Erased(ShrinkMessage(ms[c.index], c.kind)) == Erased(ms[c.index]);
    }
  }

  lemma {:induction false} ShrinkToFitKeepsShape(ms: seq<ChatMessage>)
    ensures SameShape(ShrinkToFit(ms), ms)
    decreases TotalChars(ms)
  {
    ShrinkStepKeepsShape(ms);
    if TotalChars(ms) > MAX_TOTAL_CHARS && Shrinks(ms) && TotalChars(ShrinkStep(ms)) < TotalChars(ms) {
      ShrinkToFitKeepsShape(ShrinkStep(ms));
    }
  }

  // ---------- where the pruned history starts ----------

  /** The position in the raw history at which the pruned history starts. */
  function CutPoint(raw: seq<ChatMessage>, maxTurns: nat): nat
    requires maxTurns >= 1
  {
    if Users(raw) == 0 then 0
    else RetainedStart(raw, maxTurns) + DropPoint(Folded(Sliced(raw, maxTurns)))
  }

  /** Folding commutes with cutting anywhere before the newest turn. */
  lemma FoldedSuffix(raw: seq<ChatMessage>, s: nat)
    requires Users(raw) > 0 && s <= LastUser(raw)
    ensures Folded(raw[s..]) == Folded(raw)[s..]
  {
    LastUserOfSuffix(raw, s);
    FoldAllAt(raw, LastUser(raw));
    FoldAllAt(raw[s..], LastUser(raw[s..]));
    assert forall i :: 0 <= i < |raw| - s ==> Folded(raw)[s..][i] == FoldMessage(raw[s + i], s + i >= LastUser(raw));
  }

  lemma CutTwice(ms: seq<ChatMessage>, s: nat, k: nat)
    requires s + k <= |ms|
    ensures ms[s..][k..] == ms[s + k..]
  {
  }

  /** Dropping turns after a slice at `s`, seen from the history that was sliced. */
  lemma CutAfterSlice(f: seq<ChatMessage>, s: nat)
    requires Users(f) > 0 && s <= LastUser(f) && (s == 0 || IsUser(f[s]))
    ensures var c := s + DropPoint(f[s..]);
      c <= LastUser(f) && (c == 0 || IsUser(f[c])) && Dropped(f[s..]) == f[c..]
      && (TotalChars(f[c..]) <= MAX_TOTAL_CHARS || Users(f[c..]) <= 1)
  {
    var k := DropPoint(f[s..]);
    DropPointStops(f[s..]);
    LastUserOfSuffix(f, s);
    CutTwice(f, s, k);
    if k > 0 { assert f[s..][k] == f[s + k]; }
  }

  lemma SliceFolded(raw: seq<ChatMessage>, maxTurns: nat)
    requires maxTurns >= 1 && Users(raw) > 0
    ensures var s := RetainedStart(raw, maxTurns);
      |Folded(raw)| == |raw| && Users(Folded(raw)) > 0 && LastUser(Folded(raw)) == LastUser(raw)
      && s <= LastUser(raw) && (s == 0 || IsUser(Folded(raw)[s]))
      && Folded(Sliced(raw, maxTurns)) == Folded(raw)[s..]
  {
    var s := RetainedStart(raw, maxTurns);
    SlicedTurns(raw, maxTurns);
    FoldedSuffix(raw, s);
    FoldedTurns(raw);
    FoldedRole(raw, s);
  }

  /** The cut is a turn boundary (or nothing is cut), not past the newest turn; what is left of
      the folded history fits the budget or is one turn. */
  lemma CutPointStops(raw: seq<ChatMessage>, maxTurns: nat)
    requires maxTurns >= 1 && Users(raw) > 0
    ensures CutPoint(raw, maxTurns) <= LastUser(raw) < |raw|
    ensures CutPoint(raw, maxTurns) == 0 || IsUser(raw[CutPoint(raw, maxTurns)])
    ensures TotalChars(Folded(raw)[CutPoint(raw, maxTurns)..]) <= MAX_TOTAL_CHARS
      || Users(Folded(raw)[CutPoint(raw, maxTurns)..]) <= 1
  {
    hide ShrinkToFit, DropPoint, UserIndices, TotalChars, FoldAll;
    SliceFolded(raw, maxTurns);
    CutAfterSlice(Folded(raw), RetainedStart(raw, maxTurns));
    FoldedRole(raw, CutPoint(raw, maxTurns));
  }

  lemma PrunedFromCut(raw: seq<ChatMessage>, maxTurns: nat)
    requires maxTurns >= 1 && Users(raw) > 0
    ensures CutPoint(raw, maxTurns) <= |Folded(raw)|
    ensures Pruned(raw, maxTurns) == ShrinkToFit(Folded(raw)[CutPoint(raw, maxTurns)..])
  {
    hide ShrinkToFit, FoldAll, DropPoint, UserIndices;
    SliceFolded(raw, maxTurns);
    CutAfterSlice(Folded(raw), RetainedStart(raw, maxTurns));
  }

  /** The pruned history is a suffix of the raw one up to payload text, cut at a user message
      or not at all: roles, call ids, tool names, the structure and keys of the arguments, and
      every word of the users and the assistant are kept. */
  lemma PruneKeepsShape(raw: seq<ChatMessage>, maxTurns: nat)
    requires maxTurns >= 1
    ensures var c := CutPoint(raw, maxTurns);
      c <= |raw| && (c == 0 || (c < |raw| && IsUser(raw[c]))) && SameShape(Pruned(raw, maxTurns), raw[c..])
  {
    hide ShrinkToFit, DropPoint, TotalChars;
    if Users(raw) > 0 {
      var c := CutPoint(raw, maxTurns);
      CutPointStops(raw, maxTurns);
      PrunedFromCut(raw, maxTurns);
      ShrinkToFitKeepsShape(Folded(raw)[c..]);
      FoldAllAt(raw, LastUser(raw));
      forall i | 0 <= i < |raw| ensures Erased(Folded(raw)[i]) == Erased(raw[i]) {
        FoldMessageKeepsShape(raw[i], i >= LastUser(raw));
      }
    } else {
      assert raw[0..] == raw;
    }
  }

  // ---------- pairing ----------

  ghost predicate Calls(m: ChatMessage, id: Str)
  {
    m.role == Assistant && m.toolCalls.Some? && exists k :: 0 <= k < |m.toolCalls.value| && m.toolCalls.value[k].id == id
  }

  /** Message `i` answers the call that message `j` made earlier in the same turn. */
  ghost predicate AnsweredAt(ms: seq<ChatMessage>, i: nat, j: nat)
  {
    j < i < |ms| && ms[i].toolCallId.Some? && Calls(ms[j], ms[i].toolCallId.value)
    && forall k :: j < k <= i ==> !IsUser(ms[k])
  }

  /** Every tool result follows its call within its turn. */
  ghost predicate NoOrphans(ms: seq<ChatMessage>)
  {
    forall i :: 0 <= i < |ms| && ms[i].role == Tool ==> exists j: nat :: AnsweredAt(ms, i, j)
  }

  lemma SameShapeSameCalls(a: ChatMessage, b: ChatMessage, id: Str)
    requires Erased(a) == Erased(b) && Calls(a, id)
    ensures Calls(b, id)
  {
    var k :| 0 <= k < |a.toolCalls.value| && a.toolCalls.value[k].id == id;
    assert ErasedCalls(a.toolCalls.value)[k] == ErasedCalls(b.toolCalls.value)[k];
    assert b.toolCalls.value[k].id == id;
  }

  lemma SuffixOrphansNothing(raw: seq<ChatMessage>, c: nat, r: seq<ChatMessage>)
    requires NoOrphans(raw) && c <= |raw| && (c == 0 || (c < |raw| && IsUser(raw[c])))
    requires SameShape(r, raw[c..])
    ensures NoOrphans(r)
  {
    forall i | 0 <= i < |r| ensures Erased(r[i]) == Erased(raw[c + i]) {
      assert raw[c..][i] == raw[c + i];
    }
    forall i | 0 <= i < |r| && r[i].role == Tool
      ensures exists j: nat :: AnsweredAt(r, i, j)
    {
      assert raw[c + i].role == Tool;
      var j: nat :| AnsweredAt(raw, c + i, j);
      SameShapeSameCalls(raw[j], r[j - c], raw[c + i].toolCallId.value);
      assert AnsweredAt(r, i, j - c);
    }
  }

  /** Pruning never orphans a tool result. */
  lemma PruneOrphansNothing(raw: seq<ChatMessage>, maxTurns: nat)
    requires maxTurns >= 1 && NoOrphans(raw)
    ensures NoOrphans(Pruned(raw, maxTurns))
  {
    PruneKeepsShape(raw, maxTurns);
    SuffixOrphansNothing(raw, CutPoint(raw, maxTurns), Pruned(raw, maxTurns));
  }

  // ---------- which turns survive ----------

  /** Users after a turn start decrease as the start moves on. */
  lemma FewerTurnsLater(raw: seq<ChatMessage>, a: nat, b: nat)
    requires a <= b <= |raw|
    ensures Users(raw[b..]) <= Users(raw[a..])
  {
    UserIndicesSplit(raw[a..], b - a);
    assert raw[a..][b - a..] == raw[b..];
  }

  /** Greedy dropping is optimal. Of the turns of a history that starts with a user message,
      the kept ones are a suffix of whole folded turns within `maxTurns` and the budget, or just
      the newest turn... */
  lemma KeptTurnsFit(raw: seq<ChatMessage>, maxTurns: nat)
    requires maxTurns >= 1 && raw != [] && IsUser(raw[0])
    ensures CutPoint(raw, maxTurns) < |raw| && IsUser(raw[CutPoint(raw, maxTurns)])
    ensures Users(raw[CutPoint(raw, maxTurns)..]) <= maxTurns
    ensures TotalChars(Folded(raw)[CutPoint(raw, maxTurns)..]) <= MAX_TOTAL_CHARS
      || CutPoint(raw, maxTurns) == LastUser(raw)
  {
    UserIndicesComplete(raw, 0);
    var c := CutPoint(raw, maxTurns);
    CutPointStops(raw, maxTurns);
    SlicedTurns(raw, maxTurns);
    FewerTurnsLater(raw, RetainedStart(raw, maxTurns), c);
    if Users(Folded(raw)[c..]) <= 1 { KeptSuffix(raw, c); }
  }

  /** ... and the longest such suffix: starting at any earlier turn is over one of the limits. */
  lemma DroppingIsOptimal(raw: seq<ChatMessage>, maxTurns: nat, j: nat)
    requires maxTurns >= 1 && raw != [] && IsUser(raw[0])
    requires j < CutPoint(raw, maxTurns) && j < |raw| && IsUser(raw[j])
    ensures Users(raw[j..]) > maxTurns || TotalChars(Folded(raw)[j..]) > MAX_TOTAL_CHARS
  {
    UserIndicesComplete(raw, 0);
    var s := RetainedStart(raw, maxTurns);
    SlicedTurns(raw, maxTurns);
    if j < s {
      SlicedAway(raw, maxTurns, j);
    } else {
      PassedTurn(raw, s, j);
    }
  }

  lemma KeptSuffix(raw: seq<ChatMessage>, c: nat)
    requires Users(raw) > 0 && c <= LastUser(raw) && IsUser(raw[c]) && Users(Folded(raw)[c..]) <= 1
    ensures c == LastUser(raw)
  {
    FoldedSuffix(raw, c);
    FoldedTurns(raw[c..]);
    LastUserOfSuffix(raw, c);
    FirstTurnStarts(raw[c..]);
  }

  lemma PassedTurn(raw: seq<ChatMessage>, s: nat, j: nat)
    requires Users(raw) > 0 && s <= j < |raw| && s <= LastUser(raw) && IsUser(raw[s]) && IsUser(raw[j])
    requires j < s + DropPoint(Folded(raw[s..]))
    ensures TotalChars(Folded(raw)[j..]) > MAX_TOTAL_CHARS
  {
    hide DropPoint, UserIndices, TotalChars, FoldAll;
    var f := Folded(raw);
    FoldedSuffix(raw, s);
    FoldedRole(raw, s);
    FoldedRole(raw, j);
    CutTwice(f, s, j - s);
    assert f[s..][0] == f[s] && f[s..][j - s] == f[j];
    PassedBoundary(f[s..], j - s);
  }

  lemma PassedBoundary(ms: seq<ChatMessage>, i: nat)
    requires i < |ms| && IsUser(ms[i]) && IsUser(ms[0]) && i < DropPoint(ms)
    ensures TotalChars(ms[i..]) > MAX_TOTAL_CHARS
  {
    UserIndicesComplete(ms, i);
    var k :| 0 <= k < Users(ms) && UserIndices(ms)[k] == i;
    if k == 0 {
      FirstTurnStarts(ms);
      assert ms[0..] == ms;
    } else {
      DropPointPassed(ms, k);
    }
  }

  lemma FirstTurnStarts(ms: seq<ChatMessage>)
    requires ms != [] && IsUser(ms[0])
    ensures Users(ms) > 0 && UserIndices(ms)[0] == 0
  {
    UserIndicesComplete(ms, 0);
    UserIndicesSound(ms);
  }

  lemma SlicedAway(raw: seq<ChatMessage>, maxTurns: nat, j: nat)
    requires maxTurns >= 1 && j < RetainedStart(raw, maxTurns) && j < |raw| && IsUser(raw[j])
    ensures Users(raw[j..]) > maxTurns
  {
    var u := UserIndices(raw);
    UserIndicesComplete(raw, j);
    UserIndicesSound(raw);
    var k :| 0 <= k < |u| && u[k] == j;
    assert k < |u| - maxTurns;
    CutAtTurn(raw, k);
  }

  /** When the newest turn fits once its results are capped, nothing is shrunk at all: the kept
      turns are the folded ones. */
  lemma NewestTurnFits(raw: seq<ChatMessage>, maxTurns: nat)
    requires maxTurns >= 1 && raw != [] && IsUser(raw[0])
    requires TotalChars(Folded(raw)[LastUser(raw)..]) <= MAX_TOTAL_CHARS
    ensures CutPoint(raw, maxTurns) <= LastUser(raw) < |raw|
    ensures Pruned(raw, maxTurns) == Folded(raw)[CutPoint(raw, maxTurns)..]
  {
    UserIndicesComplete(raw, 0);
    CutPointStops(raw, maxTurns);
    PrunedFromCut(raw, maxTurns);
    KeptTurnsFit(raw, maxTurns);
  }

  /** So the arguments and the reasoning of the newest turn are verbatim. */
  lemma NewestTurnVerbatim(raw: seq<ChatMessage>, maxTurns: nat, i: nat)
    requires maxTurns >= 1 && raw != [] && IsUser(raw[0])
    requires TotalChars(Folded(raw)[LastUser(raw)..]) <= MAX_TOTAL_CHARS
    requires LastUser(raw) <= i < |raw|
    ensures var c := CutPoint(raw, maxTurns);
      c <= i && i - c < |Pruned(raw, maxTurns)|
      && Pruned(raw, maxTurns)[i - c].toolCalls == raw[i].toolCalls
      && Pruned(raw, maxTurns)[i - c].reasoning == raw[i].reasoning
  {
    hide ShrinkToFit, DropPoint, UserIndices, TotalChars, FoldCalls, Longest, ElisionNote;
    NewestTurnFits(raw, maxTurns);
    FoldAllAt(raw, LastUser(raw));
  }
}
