/** Turns of one session that overlap: their messages in the order in which they reached the
    journal, and when a history cut out of that order is in order for the provider. */
module Interleaving {
  import opened Text
  import opened Protocol
  import opened Pairing

  /** A message and the turn that wrote it. */
  datatype Tagged = Tagged(turn: nat, message: ChatMessage)

  function Plain(log: seq<Tagged>): (ms: seq<ChatMessage>)
    ensures |ms| == |log| && forall i :: 0 <= i < |log| ==> ms[i] == log[i].message
  {
    seq(|log|, i requires 0 <= i < |log| => log[i].message)
  }

  /** What one turn wrote, in its own order. */
  function WrittenBy(log: seq<Tagged>, turn: nat): seq<ChatMessage>
  {
    if log == [] then []
    else WrittenBy(log[..|log| - 1], turn) + (if log[|log| - 1].turn == turn then [log[|log| - 1].message] else [])
  }

  /** The calls of a turn that have no result yet. */
  function OpenCalls(log: seq<Tagged>, turn: nat): Option<seq<Str>> { Awaited(WrittenBy(log, turn)) }

  /** Each turn writes in its own order: its results answer its own calls one by one. It may have
      been cut, or not be finished. */
  ghost predicate Orderly(log: seq<Tagged>)
  {
    forall turn :: OpenCalls(log, turn).Some?
  }

  /** Calls of different turns have different ids. */
  ghost predicate DistinctCalls(log: seq<Tagged>)
  {
    forall i, j :: 0 <= i < |log| && 0 <= j < |log| && log[i].turn != log[j].turn ==>
      Disjoint(CallsOf(log[i].message), CallsOf(log[j].message))
  }

  predicate Disjoint(a: seq<ToolCall>, b: seq<ToolCall>)
  {
    forall k, l :: 0 <= k < |a| && 0 <= l < |b| ==> a[k].id != b[l].id
  }

  // ---------- the two conditions ----------

  /** From position `c` on each result stands directly after a message of its own turn: no message of
      another turn comes between a call and its last result. */
  predicate Together(log: seq<Tagged>, c: nat)
  {
    forall j :: c <= j < |log| ==> Follows(log, c, j)
  }

  predicate Follows(log: seq<Tagged>, c: nat, j: nat)
    requires j < |log|
  {
    log[j].message.role == Tool ==> c < j && log[j - 1].turn == log[j].turn
  }

  /** No turn that writes from position `c` on has a call without a result. */
  predicate Answered(log: seq<Tagged>, c: nat)
  {
    forall j :: c <= j < |log| ==> OpenCalls(log, log[j].turn) == Some([])
  }

  // ---------- one message more ----------

  lemma OpenNext(log: seq<Tagged>, p: nat, turn: nat)
    requires p < |log|
    ensures OpenCalls(log[..p + 1], turn) ==
      if log[p].turn == turn then AwaitNext(OpenCalls(log[..p], turn), log[p].message) else OpenCalls(log[..p], turn)
  {
    hide AwaitNext, Awaited;
    assert log[..p + 1][..p] == log[..p];
    AwaitedOneMore(WrittenBy(log[..p], turn), log[p].message);
    assert WrittenBy(log[..p], turn) + [] == WrittenBy(log[..p], turn);
  }

  lemma {:induction false} WrittenByPrefix(log: seq<Tagged>, p: nat, turn: nat) returns (rest: seq<ChatMessage>)
    requires p <= |log|
    ensures WrittenBy(log, turn) == WrittenBy(log[..p], turn) + rest
    decreases |log|
  {
    if p == |log| {
      rest := [];
      assert log[..p] == log;
    } else {
      var front := log[..|log| - 1];
      rest := WrittenByPrefix(front, p, turn);
      assert front[..p] == log[..p];
      rest := rest + (if log[|log| - 1].turn == turn then [log[|log| - 1].message] else []);
    }
  }

  lemma OrderlyPrefix(log: seq<Tagged>, p: nat)
    requires Orderly(log) && p <= |log|
    ensures Orderly(log[..p])
  {
    forall turn ensures OpenCalls(log[..p], turn).Some? {
      assert OpenCalls(log, turn).Some?;
      var rest := WrittenByPrefix(log, p, turn);
      AwaitedOfPrefix(WrittenBy(log[..p], turn), rest);
    }
  }

  /** What a turn awaits it has called for. */
  lemma {:induction false} OpenIsCalled(log: seq<Tagged>, p: nat, turn: nat, id: Str) returns (i: nat, k: nat)
    requires p <= |log| && OpenCalls(log[..p], turn).Some? && id in OpenCalls(log[..p], turn).value
    ensures i < p && log[i].turn == turn && k < |CallsOf(log[i].message)| && CallsOf(log[i].message)[k].id == id
  {
    hide OpenCalls, WrittenBy;
    if p == 0 {
      NothingOpen(log[..0], turn);
      assert false;
    } else {
      OpenNext(log, p - 1, turn);
      var m := log[p - 1].message;
      if log[p - 1].turn == turn && m.role != Tool {
        i := p - 1;
        k :| 0 <= k < |CallsOf(m)| && CallsOf(m)[k].id == id;
      } else {
        i, k := OpenIsCalled(log, p - 1, turn, id);
      }
    }
  }

  lemma NothingOpen(log: seq<Tagged>, turn: nat)
    requires log == []
    ensures OpenCalls(log, turn) == Some([])
  {
  }

  /** A turn that has written nothing awaits nothing. */
  lemma {:induction false} SilentTurn(log: seq<Tagged>, p: nat, turn: nat)
    requires p <= |log| && forall j :: 0 <= j < p ==> log[j].turn != turn
    ensures OpenCalls(log[..p], turn) == Some([])
  {
    hide OpenCalls;
    if p == 0 {
      NothingOpen(log[..0], turn);
    } else {
      SilentTurn(log, p - 1, turn);
      OpenNext(log, p - 1, turn);
    }
  }

  // ---------- the merged list and its turns ----------

  /** What the part from `c` to `p` awaits when it is read as one list. */
  function Merged(log: seq<Tagged>, c: nat, p: nat): Option<seq<Str>>
    requires c <= p <= |log|
  {
    Awaited(Plain(log[c..p]))
  }

  lemma MergedNext(log: seq<Tagged>, c: nat, p: nat)
    requires c <= p < |log|
    ensures Merged(log, c, p + 1) == AwaitNext(Merged(log, c, p), log[p].message)
  {
    hide AwaitNext, Awaited;
    assert Plain(log[c..p + 1]) == Plain(log[c..p]) + [log[p].message];
    AwaitedOneMore(Plain(log[c..p]), log[p].message);
  }

  /** The part awaits what the turn that wrote last awaits, and every other turn in it awaits
      nothing. */
  ghost predicate InStep(log: seq<Tagged>, c: nat, p: nat)
    requires c <= p <= |log|
  {
    Merged(log, c, p).Some? && (p == c ==> Merged(log, c, p) == Some([]))
    && forall j :: c <= j < p ==>
         OpenCalls(log[..p], log[j].turn) == if log[j].turn == log[p - 1].turn then Merged(log, c, p) else Some([])
  }

  lemma StartsInStep(log: seq<Tagged>, c: nat)
    requires c <= |log|
    ensures InStep(log, c, c)
  {
    assert Plain(log[c..c]) == [];
  }

  /** One message further: the turns stay in step if the merged list takes the message and it is
      written by the turn that wrote last, or nothing is awaited. */
  lemma StaysInStep(log: seq<Tagged>, c: nat, p: nat)
    requires c <= p < |log| && Orderly(log) && InStep(log, c, p)
    requires if log[p].message.role == Tool then Follows(log, c, p) else Merged(log, c, p) == Some([])
    ensures InStep(log, c, p + 1)
  {
    hide OpenCalls, Merged, Awaited;
    MergedNext(log, c, p);
    OrderlyPrefix(log, p);
    OrderlyPrefix(log, p + 1);
    var turn := log[p].turn;
    assert OpenCalls(log[..p], turn).Some? && OpenCalls(log[..p + 1], turn).Some?;
    OpenNext(log, p, turn);
    forall j | c <= j < p + 1
      ensures OpenCalls(log[..p + 1], log[j].turn) == if log[j].turn == turn then Merged(log, c, p + 1) else Some([])
    {
      OpenNext(log, p, log[j].turn);
    }
  }

  /** A result that the merged list takes is one of the turn that wrote last. */
  lemma ResultIsOwn(log: seq<Tagged>, c: nat, p: nat)
    requires c <= p < |log| && Orderly(log) && (c == 0 || DistinctCalls(log)) && InStep(log, c, p)
    requires log[p].message.role == Tool && Merged(log, c, p + 1).Some?
    ensures Follows(log, c, p)
  {
    hide OpenCalls, Merged, Awaited, DistinctCalls;
    MergedNext(log, c, p);
    OrderlyPrefix(log, p);
    OrderlyPrefix(log, p + 1);
    var turn := log[p].turn;
    assert OpenCalls(log[..p], turn).Some? && OpenCalls(log[..p + 1], turn).Some?;
    OpenNext(log, p, turn);
    if log[p - 1].turn != turn {
      var id := OpenCalls(log[..p], turn).value[0];
      if c == 0 {
        var i, k := OpenIsCalled(log, p, turn, id);
      } else {
        var i, k := OpenIsCalled(log, p, turn, id);
        var j, l := OpenIsCalled(log, p, log[p - 1].turn, id);
        CallsDiffer(log, i, j, k, l);
      }
    }
  }

  lemma CallsDiffer(log: seq<Tagged>, i: nat, j: nat, k: nat, l: nat)
    requires DistinctCalls(log) && i < |log| && j < |log| && log[i].turn != log[j].turn
    requires k < |CallsOf(log[i].message)| && l < |CallsOf(log[j].message)|
    ensures CallsOf(log[i].message)[k].id != CallsOf(log[j].message)[l].id
  {
    assert Disjoint(CallsOf(log[i].message), CallsOf(log[j].message));
  }

  /** In order up to `p`: then the turns are in step there and every result is its turn's own. */
  lemma {:induction false} OrderKeepsStep(log: seq<Tagged>, c: nat, p: nat)
    requires c <= p <= |log| && Orderly(log) && (c == 0 || DistinctCalls(log) || Together(log, c))
    requires Merged(log, c, p).Some?
    ensures InStep(log, c, p) && forall j :: c <= j < p ==> Follows(log, c, j)
    decreases p
  {
    hide Merged, InStep, OpenCalls, DistinctCalls, Follows, Orderly;
    if p == c {
      StartsInStep(log, c);
    } else {
      MergedNext(log, c, p - 1);
      OrderKeepsStep(log, c, p - 1);
      if log[p - 1].message.role != Tool {
        NotTool(log, c, p - 1);
      } else if c == 0 || DistinctCalls(log) {
        ResultIsOwn(log, c, p - 1);
      }
      StaysInStep(log, c, p - 1);
    }
  }

  lemma NotTool(log: seq<Tagged>, c: nat, p: nat)
    requires p < |log| && log[p].message.role != Tool
    ensures Follows(log, c, p)
  {
  }

  /** A turn with an open call at `p` that has none at the end writes its next message as a result,
      directly after one of its own. */
  lemma {:induction false} NextIsOwn(log: seq<Tagged>, c: nat, p: nat, q: nat, turn: nat)
    requires c <= p <= q <= |log| && Orderly(log) && Together(log, c)
    requires p < |log| && log[p].turn != turn
    requires forall j :: p <= j < q ==> log[j].turn != turn
    requires OpenCalls(log[..p], turn).Some? && OpenCalls(log[..p], turn) != Some([]) && OpenCalls(log[..q], turn) == OpenCalls(log[..p], turn)
    ensures OpenCalls(log, turn) != Some([])
    decreases |log| - q
  {
    hide OpenCalls, Merged, Awaited;
    if q == |log| {
      assert log[..q] == log;
    } else {
      OpenNext(log, q, turn);
      OrderlyPrefix(log, q + 1);
      assert OpenCalls(log[..q + 1], turn).Some? && Follows(log, c, q);
      if log[q].turn != turn { NextIsOwn(log, c, p, q + 1, turn); }
    }
  }

  /** With both conditions the turns stay in step all the way. */
  lemma {:induction false} TogetherKeepsStep(log: seq<Tagged>, c: nat, p: nat)
    requires c <= p <= |log| && Orderly(log) && Together(log, c) && Answered(log, c)
    ensures InStep(log, c, p)
    decreases p
  {
    hide Merged, OpenCalls, Awaited;
    if p == c {
      StartsInStep(log, c);
    } else {
      var q := p - 1;
      TogetherKeepsStep(log, c, q);
      assert Follows(log, c, q);
      if log[q].message.role != Tool && Merged(log, c, q) != Some([]) {
        var last := log[q - 1].turn;
        OrderlyPrefix(log, q);
        OrderlyPrefix(log, q + 1);
        OpenNext(log, q, last);
        assert OpenCalls(log[..q], last).Some? && OpenCalls(log[..q + 1], last).Some?;
        assert OpenCalls(log, last) == Some([]);
        NextIsOwn(log, c, q, q, last);
      }
      StaysInStep(log, c, q);
    }
  }

  // ---------- the main result ----------

  /** Turns that write in any interleaving, each in its own order. The history from any position is in
      order exactly when no turn that writes there has a call without a result, and no message of
      another turn stands between a call and its last result. For a whole file the ids of calls do
      not matter; for a part of one, calls of different turns must have different ids unless the
      turns keep together there. */
  lemma InOrderIff(log: seq<Tagged>, c: nat)
    requires c <= |log| && Orderly(log) && (c == 0 || DistinctCalls(log) || Together(log, c))
    ensures Paired(Plain(log)[c..]) <==> Answered(log, c) && Together(log, c)
  {
    hide Orderly, DistinctCalls, OpenCalls, Awaited, Paired, Follows;
    var n := |log|;
    assert Plain(log)[c..] == Plain(log[c..n]) && log[..n] == log;
    PairedIffNothingAwaited(Plain(log[c..n]));
    if Merged(log, c, n) == Some([]) { OrderKeepsStep(log, c, n); }
    if Answered(log, c) && Together(log, c) {
      TogetherKeepsStep(log, c, n);
      if c < n { assert OpenCalls(log, log[n - 1].turn) == Some([]); }
    }
  }

  /** Turns that do not overlap: what each wrote stands in one piece. */
  predicate Apart(log: seq<Tagged>)
  {
    forall i, k, j :: 0 <= i < k < j < |log| && log[i].turn == log[j].turn ==> log[k].turn == log[i].turn
  }

  /** They keep together from any message on that is not a result. */
  lemma ApartTogether(log: seq<Tagged>, c: nat)
    requires Orderly(log) && Apart(log) && c <= |log| && (c == 0 || c == |log| || log[c].message.role != Tool)
    ensures Together(log, c)
  {
    hide OpenCalls, Apart;
    forall j | c <= j < |log| ensures Follows(log, c, j) {
      if log[j].message.role == Tool {
        var turn := log[j].turn;
        OrderlyPrefix(log, j);
        OrderlyPrefix(log, j + 1);
        assert OpenCalls(log[..j], turn).Some? && OpenCalls(log[..j + 1], turn).Some?;
        OpenNext(log, j, turn);
        var i, _ := OpenIsCalled(log, j, turn, OpenCalls(log[..j], turn).value[0]);
        BetweenOwn(log, i, j);
      }
    }
  }

  lemma BetweenOwn(log: seq<Tagged>, i: nat, j: nat)
    requires Apart(log) && i < j < |log| && log[i].turn == log[j].turn
    ensures log[j - 1].turn == log[j].turn
  {
  }
}
