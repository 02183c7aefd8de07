/** Reassembly of streamed tool-call fragments. A fragment's `index` is only a grouping hint: a
    differing id starts a new call. */
module ToolCalls {
  import opened Protocol

  datatype Fragment = Fragment(index: nat, id: Option<string>, name: Option<string>, arguments: Option<string>)

  datatype Call = Call(id: string, name: string, arguments: string)

  /** Stream index -> position, and the calls in arrival order. */
  datatype Assembly = Assembly(positions: map<nat, nat>, calls: seq<Call>)

  const EMPTY: Assembly := Assembly(map[], [])

  function IncomingId(f: Fragment): Option<string>
  {
    if f.id.Some? && f.id.value != "" then f.id else None
  }

  function Piece(o: Option<string>): string { if o.Some? then o.value else "" }

  /** An absent id and an empty one are the same; an absent name or argument adds nothing. */
  lemma FragmentReads(index: nat, s: string)
    ensures IncomingId(Fragment(index, None, None, None)) == None
    ensures IncomingId(Fragment(index, Some(s), None, None)) == if s == "" then None else Some(s)
    ensures Piece(None) == "" && Piece(Some(s)) == s
  {
  }

  predicate InRange(a: Assembly)
  {
    forall i :: i in a.positions ==> a.positions[i] < |a.calls|
  }

  /** Where a fragment lands; `|a.calls|` when it starts a new call. */
  function Place(a: Assembly, f: Fragment): (p: nat)
    requires InRange(a)
    ensures p <= |a.calls|
  {
    if f.index in a.positions
       && !(IncomingId(f).Some? && a.calls[a.positions[f.index]].id != IncomingId(f).value)
    then a.positions[f.index] else |a.calls|
  }

  /** One fragment. `generated` names a call whose first fragment carries no id. */
  function Accept(a: Assembly, f: Fragment, generated: (nat, nat) -> string): (r: Assembly)
    requires InRange(a)
    ensures InRange(r)
  {
    var p := Place(a, f);
    var started := if p < |a.calls| then a.calls else
      a.calls + [Call(if IncomingId(f).Some? then IncomingId(f).value else generated(f.index, p), "", "")];
    var c := started[p];
    Assembly(a.positions[f.index := p],
      started[p := Call(if IncomingId(f).Some? then IncomingId(f).value else c.id,
                        c.name + Piece(f.name), c.arguments + Piece(f.arguments))])
  }

  function Assembled(fs: seq<Fragment>, generated: (nat, nat) -> string): (r: Assembly)
    ensures InRange(r)
  {
    if fs == [] then EMPTY else Accept(Assembled(fs[..|fs| - 1], generated), fs[|fs| - 1], generated)
  }

  /** The loop over the fragments of a stream. */
  method AssembleToolCalls(fs: seq<Fragment>, generated: (nat, nat) -> string) returns (calls: seq<Call>)
    ensures calls == Assembled(fs, generated).calls
  {
    var positions: map<nat, nat> := map[];
    calls := [];
    for k := 0 to |fs|
      invariant Assembly(positions, calls) == Assembled(fs[..k], generated)
    {
      assert fs[..k + 1][..k] == fs[..k];
      positions, calls := AcceptFragment(positions, calls, fs[k], generated);
    }
    assert fs[..|fs|] == fs;
  }

  method AcceptFragment(before: map<nat, nat>, tools: seq<Call>, f: Fragment, generated: (nat, nat) -> string)
    returns (positions: map<nat, nat>, calls: seq<Call>)
    requires InRange(Assembly(before, tools))
    ensures Assembly(positions, calls) == Accept(Assembly(before, tools), f, generated)
  {
    positions, calls := before, tools;
    var incoming := IncomingId(f);
    var startsNew := f.index in positions && incoming.Some? && calls[positions[f.index]].id != incoming.value;
    var pos;
    if f.index in positions && !startsNew {
      pos := positions[f.index];
    } else {
      pos := |calls|;
      calls := calls + [Call(if incoming.Some? then incoming.value else generated(f.index, pos), "", "")];
    }
    positions := positions[f.index := pos];
    var c := calls[pos];
    if incoming.Some? {
      c := c.(id := incoming.value);
    }
    c := c.(name := c.name + Piece(f.name));
    c := c.(arguments := c.arguments + Piece(f.arguments));
    calls := calls[pos := c];
  }

  // ---------- any input at all ----------

  /** The call each fragment landed in. */
  function Owners(fs: seq<Fragment>, generated: (nat, nat) -> string): (r: seq<nat>)
    ensures |r| == |fs|
  {
    if fs == [] then []
    else Owners(fs[..|fs| - 1], generated) + [Place(Assembled(fs[..|fs| - 1], generated), fs[|fs| - 1])]
  }

  function Share(mine: bool, o: Option<string>): string { if mine then Piece(o) else "" }

  /** The names of the fragments of call `p`, joined in order. */
  function JoinedName(fs: seq<Fragment>, owners: seq<nat>, p: nat): string
    requires |owners| == |fs|
  {
    if fs == [] then "" else
      JoinedName(fs[..|fs| - 1], owners[..|fs| - 1], p) + Share(owners[|fs| - 1] == p, fs[|fs| - 1].name)
  }

  function JoinedArguments(fs: seq<Fragment>, owners: seq<nat>, p: nat): string
    requires |owners| == |fs|
  {
    if fs == [] then "" else
      JoinedArguments(fs[..|fs| - 1], owners[..|fs| - 1], p) + Share(owners[|fs| - 1] == p, fs[|fs| - 1].arguments)
  }

  /** How many calls the labels name, when they are numbered by first appearance. */
  function Distinct(labels: seq<nat>): nat
  {
    if labels == [] then 0
    else
      var n := Distinct(labels[..|labels| - 1]);
      if labels[|labels| - 1] >= n then n + 1 else n
  }

  ghost predicate Numbered(labels: seq<nat>)
  {
    labels == [] ||
    (Numbered(labels[..|labels| - 1]) && labels[|labels| - 1] <= Distinct(labels[..|labels| - 1]))
  }

  lemma {:induction false} JoinedBeyond(fs: seq<Fragment>, owners: seq<nat>, p: nat)
    requires |owners| == |fs| && Numbered(owners) && p >= Distinct(owners)
    ensures JoinedName(fs, owners, p) == "" && JoinedArguments(fs, owners, p) == ""
  {
    if fs != [] {
      JoinedBeyond(fs[..|fs| - 1], owners[..|fs| - 1], p);
    }
  }

  ghost predicate Injective(m: map<nat, nat>)
  {
    forall i, j :: i in m && j in m && m[i] == m[j] ==> i == j
  }

  /** One fragment changes one call, and at most appends it. */
  lemma AcceptChangesOne(a: Assembly, f: Fragment, generated: (nat, nat) -> string)
    requires InRange(a)
    ensures var p, r := Place(a, f), Accept(a, f, generated);
      |r.calls| == (if p == |a.calls| then |a.calls| + 1 else |a.calls|)
      && r.positions == a.positions[f.index := p]
    ensures forall q :: 0 <= q < |a.calls| && q != Place(a, f) ==> Accept(a, f, generated).calls[q] == a.calls[q]
    ensures var p, r := Place(a, f), Accept(a, f, generated);
      p < |r.calls|
      && r.calls[p].name == (if p < |a.calls| then a.calls[p].name else "") + Piece(f.name)
      && r.calls[p].arguments == (if p < |a.calls| then a.calls[p].arguments else "") + Piece(f.arguments)
      && r.calls[p].id == (if IncomingId(f).Some? then IncomingId(f).value
                           else if p < |a.calls| then a.calls[p].id else generated(f.index, p))
  {
  }

  /** For any fragments whatever, every fragment lands in exactly one call; calls are numbered by
      their first fragment and none is without one. */
  lemma {:induction false} OwnersAreNumbered(fs: seq<Fragment>, generated: (nat, nat) -> string)
    ensures Numbered(Owners(fs, generated))
    ensures Distinct(Owners(fs, generated)) == |Assembled(fs, generated).calls|
  {
    if fs == [] {
    } else {
      var front := fs[..|fs| - 1];
      OwnersAreNumbered(front, generated);
      assert Owners(fs, generated)[..|fs| - 1] == Owners(front, generated);
      AcceptChangesOne(Assembled(front, generated), fs[|fs| - 1], generated);
      hide Accept, Place;
    }
  }

  /** Each call is the concatenation of its fragments, in order. */
  lemma {:induction false} CallIsItsFragments(fs: seq<Fragment>, generated: (nat, nat) -> string, p: nat)
    requires p < |Assembled(fs, generated).calls|
    ensures Assembled(fs, generated).calls[p].name == JoinedName(fs, Owners(fs, generated), p)
    ensures Assembled(fs, generated).calls[p].arguments == JoinedArguments(fs, Owners(fs, generated), p)
  {
    hide Accept, Place, Numbered, Distinct, Piece;
    var front, f := fs[..|fs| - 1], fs[|fs| - 1];
    var a, owners := Assembled(front, generated), Owners(front, generated);
    assert Owners(fs, generated)[..|fs| - 1] == owners;
    AcceptChangesOne(a, f, generated);
    OwnersAreNumbered(front, generated);
    if p < |a.calls| {
      CallIsItsFragments(front, generated, p);
    } else {
      JoinedBeyond(front, owners, p);
    }
  }

  /** The index map never sends two indices to one call, nor outside the calls. */
  lemma {:induction false} PositionsInjective(fs: seq<Fragment>, generated: (nat, nat) -> string)
    ensures Injective(Assembled(fs, generated).positions) && InRange(Assembled(fs, generated))
  {
    if fs == [] {
    } else {
      var front := fs[..|fs| - 1];
      PositionsInjective(front, generated);
      AcceptChangesOne(Assembled(front, generated), fs[|fs| - 1], generated);
      hide Accept;
    }
  }

  // ---------- well-behaved providers ----------

  /** The call that last used each index. */
  function Current(fs: seq<Fragment>, labels: seq<nat>): map<nat, nat>
    requires |labels| == |fs|
  {
    if fs == [] then map[]
    else Current(fs[..|fs| - 1], labels[..|fs| - 1])[fs[|fs| - 1].index := labels[|fs| - 1]]
  }

  /** `labels` says which call each fragment belongs to, numbered by first fragment. A later fragment
      comes on the index that its call used last; otherwise any interleaving. */
  ghost predicate Labelled(fs: seq<Fragment>, labels: seq<nat>)
    requires |labels| == |fs|
  {
    fs == [] ||
    (var front, seen := fs[..|fs| - 1], labels[..|fs| - 1];
     var f, c := fs[|fs| - 1], labels[|fs| - 1];
     Labelled(front, seen)
     && (c == Distinct(seen)
         || (c < Distinct(seen) && f.index in Current(front, seen) && Current(front, seen)[f.index] == c)))
  }

  /** The id each call starts with: that of its first fragment, or the generated one. */
  function CallIds(fs: seq<Fragment>, labels: seq<nat>, generated: (nat, nat) -> string): (ids: seq<string>)
    requires |labels| == |fs|
    ensures |ids| == Distinct(labels)
  {
    if fs == [] then []
    else
      var ids := CallIds(fs[..|fs| - 1], labels[..|fs| - 1], generated);
      var f := fs[|fs| - 1];
      if labels[|fs| - 1] < |ids| then ids
      else ids + [if IncomingId(f).Some? then IncomingId(f).value else generated(f.index, |ids|)]
  }

  /** Later fragments of a call carry the id it started with, or none; a call that starts on an index
      in use carries an id, and not that of the call before it there. */
  ghost predicate IdsSteady(fs: seq<Fragment>, labels: seq<nat>, generated: (nat, nat) -> string)
    requires |labels| == |fs|
  {
    fs == [] ||
    (var front, seen := fs[..|fs| - 1], labels[..|fs| - 1];
     var f, c := fs[|fs| - 1], labels[|fs| - 1];
     var current, ids := Current(front, seen), CallIds(front, seen, generated);
     IdsSteady(front, seen, generated)
     && if c >= |ids| then
          f.index in current && current[f.index] < |ids| ==>
            IncomingId(f).Some? && IncomingId(f).value != ids[current[f.index]]
        else
          IncomingId(f).None? || IncomingId(f).value == ids[c])
  }

  /** The state after fragments that went where their labels say. */
  ghost predicate Tracks(a: Assembly, fs: seq<Fragment>, labels: seq<nat>, generated: (nat, nat) -> string)
    requires |labels| == |fs|
  {
    a.positions == Current(fs, labels) && |a.calls| == Distinct(labels)
    && forall c :: 0 <= c < |a.calls| ==> a.calls[c].id == CallIds(fs, labels, generated)[c]
  }

  /** One fragment more goes where it is labelled exactly when its id allows it. */
  lemma LandsWhereLabelled(a: Assembly, fs: seq<Fragment>, labels: seq<nat>, generated: (nat, nat) -> string)
    requires |labels| == |fs| > 0 && Labelled(fs, labels) && InRange(a)
    requires IdsSteady(fs[..|fs| - 1], labels[..|fs| - 1], generated)
    requires Tracks(a, fs[..|fs| - 1], labels[..|fs| - 1], generated)
    ensures Place(a, fs[|fs| - 1]) == labels[|fs| - 1] <==> IdsSteady(fs, labels, generated)
  {
    hide Distinct, CallIds, Current;
  }

  lemma TracksFurther(a: Assembly, fs: seq<Fragment>, labels: seq<nat>, generated: (nat, nat) -> string)
    requires |labels| == |fs| > 0 && Labelled(fs, labels) && InRange(a) && IdsSteady(fs, labels, generated)
    requires Tracks(a, fs[..|fs| - 1], labels[..|fs| - 1], generated)
    ensures Tracks(Accept(a, fs[|fs| - 1], generated), fs, labels, generated)
  {
    LandsWhereLabelled(a, fs, labels, generated);
    AcceptChangesOne(a, fs[|fs| - 1], generated);
    hide Accept, Place, IncomingId;
  }

  lemma LabelledFront(fs: seq<Fragment>, labels: seq<nat>, generated: (nat, nat) -> string)
    requires |labels| == |fs| > 0 && Labelled(fs, labels)
    ensures Labelled(fs[..|fs| - 1], labels[..|fs| - 1])
    ensures IdsSteady(fs, labels, generated) ==> IdsSteady(fs[..|fs| - 1], labels[..|fs| - 1], generated)
  {
  }

  lemma AssembledFurther(fs: seq<Fragment>, generated: (nat, nat) -> string)
    requires fs != []
    ensures var a := Assembled(fs[..|fs| - 1], generated);
      Assembled(fs, generated) == Accept(a, fs[|fs| - 1], generated)
      && Owners(fs, generated) == Owners(fs[..|fs| - 1], generated) + [Place(a, fs[|fs| - 1])]
  {
    hide Accept, Place;
  }

  lemma NothingToLabel(generated: (nat, nat) -> string)
    ensures Owners([], generated) == [] && Tracks(Assembled([], generated), [], [], generated) && IdsSteady([], [], generated)
  {
  }

  /** A labelled interleaving is sent to its labels exactly when its ids are steady. When the first
      fragment of a call has no id, this asks that no later one carries an id other than the
      generated one. */
  lemma {:induction false} LabelsAreOwners(fs: seq<Fragment>, labels: seq<nat>, generated: (nat, nat) -> string)
    requires |labels| == |fs| && Labelled(fs, labels)
    ensures Owners(fs, generated) == labels <==> IdsSteady(fs, labels, generated)
    ensures IdsSteady(fs, labels, generated) ==> Tracks(Assembled(fs, generated), fs, labels, generated)
  {
    hide *;
    if fs == [] {
      NothingToLabel(generated);
    } else {
      var front, seen := fs[..|fs| - 1], labels[..|fs| - 1];
      var a := Assembled(front, generated);
      LabelledFront(fs, labels, generated);
      LabelsAreOwners(front, seen, generated);
      AssembledFurther(fs, generated);
      assert Owners(fs, generated)[..|fs| - 1] == Owners(front, generated);
      assert labels == seen + [labels[|fs| - 1]];
      if IdsSteady(front, seen, generated) {
        LandsWhereLabelled(a, fs, labels, generated);
        if IdsSteady(fs, labels, generated) { TracksFurther(a, fs, labels, generated); }
      }
    }
  }

  /** Then the loop yields exactly the per-call concatenations, in order of first fragment. */
  lemma ReassemblyIsExact(fs: seq<Fragment>, labels: seq<nat>, generated: (nat, nat) -> string)
    requires |labels| == |fs| && Labelled(fs, labels) && IdsSteady(fs, labels, generated)
    ensures |Assembled(fs, generated).calls| == Distinct(labels)
    ensures forall c :: 0 <= c < Distinct(labels) ==>
      Assembled(fs, generated).calls[c] ==
        Call(CallIds(fs, labels, generated)[c], JoinedName(fs, labels, c), JoinedArguments(fs, labels, c))
  {
    hide Labelled, IdsSteady, CallIds, Assembled, Owners, Distinct, JoinedName, JoinedArguments, Current;
    LabelsAreOwners(fs, labels, generated);
    OwnersAreNumbered(fs, generated);
    forall c | 0 <= c < Distinct(labels)
      ensures Assembled(fs, generated).calls[c] ==
        Call(CallIds(fs, labels, generated)[c], JoinedName(fs, labels, c), JoinedArguments(fs, labels, c))
    {
      CallIsItsFragments(fs, generated, c);
    }
  }

  /** So an id that first arrives with a call's second fragment splits the call, unless it equals the
      generated one. */
  lemma LateIdSplits(first: Fragment, second: Fragment, generated: (nat, nat) -> string)
    requires IncomingId(first).None? && IncomingId(second).Some? && first.index == second.index
    ensures |Assembled([first, second], generated).calls| == 2 <==> IncomingId(second).value != generated(first.index, 0)
  {
    assert [first, second][..1] == [first] && [first][..0] == [];
    assert Assembled([first], generated) == Accept(EMPTY, first, generated);
  }
}
