/** Where the turns of a history begin. */
module Turns {
  import opened Protocol

  predicate IsUser(m: ChatMessage) { m.role == User }

  /** Positions of the user messages, ascending. */
  function UserIndices(ms: seq<ChatMessage>): (r: seq<nat>)
    ensures forall k :: 0 <= k < |r| ==> r[k] < |ms|
  {
    if ms == [] then []
    else
      var front := UserIndices(ms[..|ms| - 1]);
      if IsUser(ms[|ms| - 1]) then front + [|ms| - 1] else front
  }

  /** The collected positions are the user messages, in ascending order... */
  lemma {:induction false} UserIndicesSound(ms: seq<ChatMessage>)
    ensures forall k :: 0 <= k < |UserIndices(ms)| ==> k <= UserIndices(ms)[k]
    ensures forall k :: 0 <= k < |UserIndices(ms)| ==> IsUser(ms[UserIndices(ms)[k]])
    ensures forall j, k :: 0 <= j < k < |UserIndices(ms)| ==> UserIndices(ms)[j] < UserIndices(ms)[k]
  {
    if ms == [] {
    } else {
      var front := ms[..|ms| - 1];
      UserIndicesSound(front);
      var u := UserIndices(front);
      assert forall k :: 0 <= k < |u| ==> ms[u[k]] == front[u[k]];
      if IsUser(ms[|ms| - 1]) {
        assert UserIndices(ms) == u + [|ms| - 1];
        if u != [] { assert |u| - 1 <= u[|u| - 1] < |front|; }
      }
    }
  }

  /** ... and all of them. */
  lemma {:induction false} UserIndicesComplete(ms: seq<ChatMessage>, i: nat)
    requires i < |ms| && IsUser(ms[i])
    ensures i in UserIndices(ms)
  {
    if i < |ms| - 1 {
      UserIndicesComplete(ms[..|ms| - 1], i);
    }
  }

  function Users(ms: seq<ChatMessage>): nat { |UserIndices(ms)| }

  /** Start of the newest turn; 0 when no turn has begun. */
  function LastUser(ms: seq<ChatMessage>): (i: nat)
    ensures Users(ms) > 0 ==> i < |ms|
  {
    var u := UserIndices(ms);
    if u == [] then 0 else u[|u| - 1]
  }

  /** The newest turn starts at a user message, and none follows it. */
  lemma LastUserIsNewest(ms: seq<ChatMessage>)
    requires Users(ms) > 0
    ensures IsUser(ms[LastUser(ms)])
    ensures forall j :: LastUser(ms) < j < |ms| ==> !IsUser(ms[j])
  {
    UserIndicesSound(ms);
    var u := UserIndices(ms);
    assert u[|u| - 1] == LastUser(ms);
    forall j | LastUser(ms) < j < |ms| ensures !IsUser(ms[j]) {
      if IsUser(ms[j]) { UserIndicesComplete(ms, j); }
    }
  }

  lemma LastUserUnique(ms: seq<ChatMessage>, i: nat)
    requires i < |ms| && IsUser(ms[i])
    requires forall j :: i < j < |ms| ==> !IsUser(ms[j])
    ensures Users(ms) > 0 && LastUser(ms) == i
  {
    UserIndicesComplete(ms, i);
    LastUserIsNewest(ms);
  }

  method CollectUserIndices(ms: seq<ChatMessage>) returns (r: seq<nat>)
    ensures r == UserIndices(ms)
  {
    r := [];
    for i := 0 to |ms|
      invariant r == UserIndices(ms[..i])
    {
      assert ms[..i + 1][..i] == ms[..i];
      if IsUser(ms[i]) {
        r := r + [i];
      }
    }
    assert ms[..|ms|] == ms;
  }

  function Shifted(r: seq<nat>, k: nat): (s: seq<nat>)
    ensures |s| == |r| && forall i :: 0 <= i < |r| ==> s[i] == r[i] + k
  {
    seq(|r|, i requires 0 <= i < |r| => r[i] + k)
  }

  /** The turn start that the last message of a list adds. */
  function LastStart(ms: seq<ChatMessage>): seq<nat>
    requires ms != []
  {
    if IsUser(ms[|ms| - 1]) then [|ms| - 1] else []
  }

  lemma OneMoreIndex(ms: seq<ChatMessage>)
    requires ms != []
    ensures UserIndices(ms) == UserIndices(ms[..|ms| - 1]) + LastStart(ms)
  {
  }

  lemma ShiftedConcat(a: seq<nat>, b: seq<nat>, k: nat)
    ensures Shifted(a + b, k) == Shifted(a, k) + Shifted(b, k)
  {
  }

  lemma Associates(a: seq<nat>, b: seq<nat>, c: seq<nat>)
    ensures a + b + c == a + (b + c)
  {
  }

  /** The turn starts of a history are those of a prefix, then those of the rest. */
  lemma {:induction false} UserIndicesSplit(ms: seq<ChatMessage>, k: nat)
    requires k <= |ms|
    ensures UserIndices(ms) == UserIndices(ms[..k]) + Shifted(UserIndices(ms[k..]), k)
    decreases |ms| - k
  {
    if k == |ms| {
      assert ms[..k] == ms;
    } else {
      hide UserIndices, Shifted;
      var front, rest := ms[..|ms| - 1], ms[k..];
      UserIndicesSplit(front, k);
      OneMoreIndex(ms);
      OneMoreIndex(rest);
      assert front[..k] == ms[..k] && rest[..|rest| - 1] == front[k..];
      ShiftedConcat(UserIndices(front[k..]), LastStart(rest), k);
      LastStartShifts(ms, k);
      Associates(UserIndices(ms[..k]), Shifted(UserIndices(front[k..]), k), LastStart(ms));
    }
  }

  lemma LastStartShifts(ms: seq<ChatMessage>, k: nat)
    requires k < |ms|
    ensures Shifted(LastStart(ms[k..]), k) == LastStart(ms)
  {
  }

  lemma SameEntry(u: seq<nat>, a: nat, b: nat)
    requires a < |u| && b < |u| && u[a] == u[b]
    requires forall j, k :: 0 <= j < k < |u| ==> u[j] < u[k]
    ensures a == b
  {
  }

  /** Cutting at the k-th turn start drops exactly k turns. */
  lemma CutAtTurn(ms: seq<ChatMessage>, k: nat)
    requires k < Users(ms)
    ensures var c := UserIndices(ms)[k];
      Users(ms[c..]) == Users(ms) - k && Shifted(UserIndices(ms[c..]), c) == UserIndices(ms)[k..]
  {
    var u := UserIndices(ms);
    var c := u[k];
    UserIndicesSound(ms);
    UserIndicesSplit(ms, c);
    var front := UserIndices(ms[..c]);
    UserIndicesSound(ms[c..]);
    UserIndicesComplete(ms[c..], 0);
    var j :| 0 <= j < |UserIndices(ms[c..])| && UserIndices(ms[c..])[j] == 0;
    assert j == 0;
    SameEntry(u, |front|, k);
    assert u[k..] == Shifted(UserIndices(ms[c..]), c);
  }

  /** A suffix that contains the newest turn keeps the position of that turn. */
  lemma LastUserOfSuffix(ms: seq<ChatMessage>, c: nat)
    requires Users(ms) > 0 && c <= LastUser(ms)
    ensures Users(ms[c..]) > 0 && LastUser(ms[c..]) == LastUser(ms) - c
  {
    LastUserIsNewest(ms);
    LastUserUnique(ms[c..], LastUser(ms) - c);
  }

  /** Turn starts depend on the roles alone. */
  lemma {:induction false} SameRolesSameTurns(a: seq<ChatMessage>, b: seq<ChatMessage>)
    requires |a| == |b| && forall i :: 0 <= i < |a| ==> a[i].role == b[i].role
    ensures UserIndices(a) == UserIndices(b)
  {
    if a != [] { SameRolesSameTurns(a[..|a| - 1], b[..|b| - 1]); }
  }
}
