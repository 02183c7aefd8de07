/** The shape a provider accepts: every batch of tool calls is followed at once by one result
    per call, in order, and there are no other tool results. */
module Pairing {
  import opened Text
  import opened Protocol
  import opened Payload
  import opened Prune
  import opened PruneShape
  import opened Inflight

  function CallsOf(m: ChatMessage): seq<ToolCall>
  {
    if m.toolCalls.Some? then m.toolCalls.value else []
  }

  predicate Answers(m: ChatMessage, c: ToolCall)
  {
    m.role == Tool && m.toolCallId == Some(c.id) && CallsOf(m) == []
  }

  predicate AnswersAll(results: seq<ChatMessage>, calls: seq<ToolCall>)
  {
    |results| == |calls| && forall j :: 0 <= j < |calls| ==> Answers(results[j], calls[j])
  }

  /** A message list is a sequence of other messages and of calls with their results. */
  predicate Paired(ms: seq<ChatMessage>)
  {
    if ms == [] then true
    else
      var n := |CallsOf(ms[0])|;
      ms[0].role != Tool && n < |ms| && AnswersAll(ms[1..n + 1], CallsOf(ms[0])) && Paired(ms[n + 1..])
  }

  /** A message with all its results in front changes nothing. */
  lemma PairedBatch(m: ChatMessage, results: seq<ChatMessage>, rest: seq<ChatMessage>)
    requires m.role != Tool && AnswersAll(results, CallsOf(m))
    ensures Paired([m] + results + rest) <==> Paired(rest)
  {
    hide AnswersAll;
    var ms := [m] + results + rest;
    var n := |CallsOf(m)|;
    assert |results| == n by { AnswersAllLength(results, CallsOf(m)); }
    assert ms[1..n + 1] == results && ms[n + 1..] == rest;
  }

  lemma AnswersAllLength(results: seq<ChatMessage>, calls: seq<ToolCall>)
    requires AnswersAll(results, calls)
    ensures |results| == |calls|
  {
  }

  /** The first message with its results, and the rest. */
  lemma PairedSplit(ms: seq<ChatMessage>) returns (results: seq<ChatMessage>, rest: seq<ChatMessage>)
    requires Paired(ms) && ms != []
    ensures ms == [ms[0]] + results + rest && |rest| < |ms|
    ensures ms[0].role != Tool && AnswersAll(results, CallsOf(ms[0])) && Paired(rest)
  {
    var n := |CallsOf(ms[0])|;
    results, rest := ms[1..n + 1], ms[n + 1..];
  }

  lemma ConcatAssociates<T>(x: seq<T>, y: seq<T>, z: seq<T>)
    ensures (x + y) + z == x + (y + z)
  {
  }

  /** Cutting a concatenation inside its second part. */
  lemma CutInSecond<T>(x: seq<T>, y: seq<T>, c: nat)
    requires |x| <= c <= |x| + |y|
    ensures (x + y)[c..] == y[c - |x|..] && (x + y)[..c] == x + y[..c - |x|]
  {
  }

  lemma {:induction false} PairedConcat(a: seq<ChatMessage>, b: seq<ChatMessage>)
    requires Paired(a)
    ensures Paired(a + b) <==> Paired(b)
    decreases |a|
  {
    if a == [] {
      assert a + b == b;
    } else {
      hide Paired, AnswersAll;
      var results, rest := PairedSplit(a);
      PairedConcat(rest, b);
      PairedBatch(a[0], results, rest + b);
      ConcatAssociates([a[0]] + results, rest, b);
    }
  }

  lemma CutPastBatch(ms: seq<ChatMessage>, c: nat) returns (results: seq<ChatMessage>, rest: seq<ChatMessage>)
    requires Paired(ms) && 0 < c <= |ms| && (c == |ms| || ms[c].role != Tool)
    ensures |results| < c && |rest| < |ms|
    ensures ms[0].role != Tool && AnswersAll(results, CallsOf(ms[0])) && Paired(rest)
    ensures var k := c - |results| - 1;
      k <= |rest| && (k == |rest| || rest[k].role != Tool)
      && ms[c..] == rest[k..] && ms[..c] == [ms[0]] + results + rest[..k]
  {
    results, rest := PairedSplit(ms);
    forall k | 1 <= k <= |results| ensures ms[k].role == Tool {
      assert ms[k] == results[k - 1];
    }
    CutInSecond([ms[0]] + results, rest, c);
  }

  /** A list that is accepted can be cut before any message that is not a result. */
  lemma {:induction false} PairedSuffix(ms: seq<ChatMessage>, c: nat)
    requires Paired(ms) && c <= |ms| && (c == |ms| || ms[c].role != Tool)
    ensures Paired(ms[c..]) && Paired(ms[..c])
    decreases |ms|
  {
    hide Paired, AnswersAll, CallsOf;
    if c == 0 {
      NothingPaired();
      assert ms[0..] == ms && ms[..0] == [];
    } else {
      var results, rest := CutPastBatch(ms, c);
      var k := c - |results| - 1;
      PairedSuffix(rest, k);
      PairedBatch(ms[0], results, rest[..k]);
    }
  }

  lemma NothingPaired()
    ensures Paired([])
  {
  }

  /** Read by position: each batch of calls has exactly its results after it. */
  lemma PairedByPosition(ms: seq<ChatMessage>, i: nat)
    requires Paired(ms) && i < |ms| && ms[i].role != Tool
    ensures i + |CallsOf(ms[i])| < |ms|
    ensures forall j :: 0 <= j < |CallsOf(ms[i])| ==> Answers(ms[i + 1 + j], CallsOf(ms[i])[j])
    ensures i + |CallsOf(ms[i])| + 1 < |ms| ==> ms[i + |CallsOf(ms[i])| + 1].role != Tool
  {
    PairedSuffix(ms, i);
    var results, rest := PairedSplit(ms[i..]);
    var n := |results|;
    forall j | 0 <= j < n ensures Answers(ms[i + 1 + j], CallsOf(ms[i])[j]) {
      assert ms[i + 1 + j] == ms[i..][1 + j] == results[j];
    }
    if i + n + 1 < |ms| { assert ms[i + n + 1] == ms[i..][n + 1] == rest[0]; }
  }

  // ---------- read from left to right ----------

  function Ids(calls: seq<ToolCall>): (r: seq<Str>)
    ensures |r| == |calls| && forall k :: 0 <= k < |calls| ==> r[k] == calls[k].id
  {
    seq(|calls|, k requires 0 <= k < |calls| => calls[k].id)
  }

  /** The ids of the calls that still await their results, after one more message; `None` once a
      result is not the next one awaited or another message comes before it. */
  function AwaitNext(awaited: Option<seq<Str>>, m: ChatMessage): Option<seq<Str>>
  {
    if awaited.None? then None
    else if m.role == Tool then
      if awaited.value != [] && m.toolCallId == Some(awaited.value[0]) && CallsOf(m) == [] then Some(awaited.value[1..]) else None
    else if awaited.value == [] then Some(Ids(CallsOf(m)))
    else None
  }

  function AwaitedAfter(awaited: Option<seq<Str>>, ms: seq<ChatMessage>): Option<seq<Str>>
    decreases |ms|
  {
    if ms == [] then awaited else AwaitedAfter(AwaitNext(awaited, ms[0]), ms[1..])
  }

  function Awaited(ms: seq<ChatMessage>): Option<seq<Str>> { AwaitedAfter(Some([]), ms) }

  lemma {:induction false} AwaitedConcat(awaited: Option<seq<Str>>, a: seq<ChatMessage>, b: seq<ChatMessage>)
    ensures AwaitedAfter(awaited, a + b) == AwaitedAfter(AwaitedAfter(awaited, a), b)
    decreases |a|
  {
    hide AwaitNext;
    if a == [] {
      assert a + b == b;
    } else {
      AwaitedConcat(AwaitNext(awaited, a[0]), a[1..], b);
      assert (a + b)[1..] == a[1..] + b;
    }
  }

  lemma AwaitedOneMore(ms: seq<ChatMessage>, m: ChatMessage)
    ensures Awaited(ms + [m]) == AwaitNext(Awaited(ms), m)
  {
    hide AwaitNext;
    AwaitedConcat(Some([]), ms, [m]);
    assert [m][1..] == [];
  }

  lemma {:induction false} NeverAgain(ms: seq<ChatMessage>)
    ensures AwaitedAfter(None, ms) == None
    decreases |ms|
  {
    if ms == [] {
    } else {
      NeverAgain(ms[1..]);
    }
  }

  /** What a list awaits is well defined of each of its beginnings. */
  lemma AwaitedOfPrefix(a: seq<ChatMessage>, b: seq<ChatMessage>)
    requires Awaited(a + b).Some?
    ensures Awaited(a).Some?
  {
    AwaitedConcat(Some([]), a, b);
    NeverAgain(b);
  }

  /** Nothing is left to await exactly when the first messages are the awaited results and the rest
      leaves nothing to await. */
  lemma {:induction false} AwaitedResults(ids: seq<Str>, ms: seq<ChatMessage>)
    ensures AwaitedAfter(Some(ids), ms) == Some([]) <==>
      |ids| <= |ms| && AwaitedAfter(Some([]), ms[|ids|..]) == Some([])
      && forall j :: 0 <= j < |ids| ==> ms[j].role == Tool && ms[j].toolCallId == Some(ids[j]) && CallsOf(ms[j]) == []
    decreases |ids|
  {
    if ids == [] {
      assert ms[0..] == ms;
    } else if ms != [] {
      NeverAgain(ms[1..]);
      AwaitedResults(ids[1..], ms[1..]);
      if |ids| <= |ms| {
        assert ms[1..][|ids| - 1..] == ms[|ids|..];
        assert forall j :: 1 <= j < |ids| ==> ms[j] == ms[1..][j - 1] && ids[j] == ids[1..][j - 1];
      }
    }
  }

  /** Some of the awaited results leave the others awaited. */
  lemma {:induction false} AwaitedOthers(ids: seq<Str>, results: seq<ChatMessage>)
    requires |results| <= |ids|
    requires forall j :: 0 <= j < |results| ==>
      results[j].role == Tool && results[j].toolCallId == Some(ids[j]) && CallsOf(results[j]) == []
    ensures AwaitedAfter(Some(ids), results) == Some(ids[|results|..])
    decreases |results|
  {
    if results == [] {
      assert ids[0..] == ids;
    } else {
      AwaitedOthers(ids[1..], results[1..]);
      assert ids[1..][|results| - 1..] == ids[|results|..];
    }
  }

  /** A list is in order exactly when, read from left to right, each result is the next one awaited,
      nothing else comes before it, and at the end nothing is awaited. */
  lemma {:induction false} PairedIffNothingAwaited(ms: seq<ChatMessage>)
    ensures Paired(ms) <==> Awaited(ms) == Some([])
    decreases |ms|
  {
    if ms == [] {
    } else {
      var calls, rest := CallsOf(ms[0]), ms[1..];
      if ms[0].role == Tool {
        NeverAgain(rest);
      } else {
        AwaitedResults(Ids(calls), rest);
        if |calls| <= |rest| {
          PairedIffNothingAwaited(rest[|calls|..]);
          assert rest[|calls|..] == ms[|calls| + 1..];
          assert forall j :: 0 <= j < |calls| ==> ms[1..|calls| + 1][j] == rest[j];
        }
      }
    }
  }

  // ---------- payload text does not matter ----------

  /** Same roles, call ids and result ids, message by message. */
  ghost predicate SameWiring(a: ChatMessage, b: ChatMessage)
  {
    a.role == b.role && a.toolCallId == b.toolCallId && |CallsOf(a)| == |CallsOf(b)|
    && forall k :: 0 <= k < |CallsOf(a)| ==> CallsOf(a)[k].id == CallsOf(b)[k].id
  }

  lemma {:induction false} WiringDecidesPairing(a: seq<ChatMessage>, b: seq<ChatMessage>)
    requires |a| == |b| && forall i :: 0 <= i < |a| ==> SameWiring(a[i], b[i])
    ensures Paired(a) <==> Paired(b)
  {
    if a != [] {
      var n := |CallsOf(a[0])|;
      assert SameWiring(a[0], b[0]);
      if n < |a| {
        WiringDecidesPairing(a[n + 1..], b[n + 1..]);
        forall j | 0 <= j < n
          ensures Answers(a[1..n + 1][j], CallsOf(a[0])[j]) <==> Answers(b[1..n + 1][j], CallsOf(b[0])[j])
        {
          assert SameWiring(a[1 + j], b[1 + j]);
        }
      }
    }
  }

  lemma {:induction false} WiringDecidesAwaited(awaited: Option<seq<Str>>, a: seq<ChatMessage>, b: seq<ChatMessage>)
    requires |a| == |b| && forall i :: 0 <= i < |a| ==> SameWiring(a[i], b[i])
    ensures AwaitedAfter(awaited, a) == AwaitedAfter(awaited, b)
    decreases |a|
  {
    if a == [] {
    } else {
      assert SameWiring(a[0], b[0]);
      assert Ids(CallsOf(a[0])) == Ids(CallsOf(b[0]));
      WiringDecidesAwaited(AwaitNext(awaited, a[0]), a[1..], b[1..]);
    }
  }

  lemma InflightKeepsWiring(m: ChatMessage)
    ensures SameWiring(FoldInflight(m), m)
  {
    hide Elide;
    if m.toolCalls.Some? {
      var calls := FoldCalls(m.toolCalls.value, INFLIGHT_ARG_STRING_KEEP);
      assert forall k :: 0 <= k < |calls| ==> calls[k].id == m.toolCalls.value[k].id;
    }
  }

  /** Compaction neither breaks nor mends the pairing. */
  lemma CompactionKeepsPairing(ms: seq<ChatMessage>)
    ensures Paired(Compacted(ms)) <==> Paired(ms)
  {
    hide FoldInflight, FoldFirst;
    FoldFirstAt(ms, Cutoff(ms));
    forall i | 0 <= i < |ms| ensures SameWiring(Compacted(ms)[i], ms[i]) {
      InflightKeepsWiring(ms[i]);
    }
    WiringDecidesPairing(Compacted(ms), ms);
  }

  lemma SameErasureSameWiring(a: ChatMessage, b: ChatMessage)
    requires Erased(a) == Erased(b)
    ensures SameWiring(a, b)
  {
    if a.toolCalls.Some? {
      var x, y := ErasedCalls(a.toolCalls.value), ErasedCalls(b.toolCalls.value);
      assert forall k :: 0 <= k < |x| ==> x[k].id == y[k].id;
    }
  }

  /** Pruning does not change the pairing of what it keeps. */
  lemma PruningKeepsPairing(raw: seq<ChatMessage>, maxTurns: nat)
    requires maxTurns >= 1
    ensures CutPoint(raw, maxTurns) <= |raw|
    ensures Paired(Pruned(raw, maxTurns)) <==> Paired(raw[CutPoint(raw, maxTurns)..])
    ensures Paired(raw) ==> Paired(Pruned(raw, maxTurns))
  {
    hide Pruned, CutPoint, Erased, Paired;
    PruneKeepsShape(raw, maxTurns);
    var c := CutPoint(raw, maxTurns);
    var r := Pruned(raw, maxTurns);
    forall i | 0 <= i < |r| ensures SameWiring(r[i], raw[c..][i]) {
      SameErasureSameWiring(r[i], raw[c..][i]);
    }
    WiringDecidesPairing(r, raw[c..]);
    if Paired(raw) {
      if c == 0 { assert raw[0..] == raw; } else { PairedSuffix(raw, c); }
    }
  }
}
