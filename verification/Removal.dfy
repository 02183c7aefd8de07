/** Removing what the search found: the copies of the pattern at the end of the text, and exactly
    when there is something the removal can find. */
module Removal {
  import opened Protocol
  import opened Repetition

  // ---------- the removal ----------

  /** Where the pattern first occurs at or after a position. */
  function FirstAt(t: Bytes, p: Bytes, from: nat): (r: Option<nat>)
    ensures r.Some? ==> from <= r.value && r.value + |p| <= |t| && OccursAt(t, p, r.value)
    ensures forall i: nat :: from <= i && (r.Some? ==> i < r.value) ==> !OccursAt(t, p, i)
    decreases |t| - from
  {
    if from + |p| > |t| then None
    else if OccursAt(t, p, from) then Some(from)
    else FirstAt(t, p, from + 1)
  }

  function SearchStart(t: Bytes): nat
  {
    NextBoundary(t, if |t| > SEARCHED then |t| - SEARCHED else 0)
  }

  lemma SearchReaches(t: Bytes, i: nat)
    requires Utf8(t) && i <= |t| && |t| - i < 3997
    ensures SearchStart(t) <= i
  {
    if |t| > SEARCHED {
      var from := |t| - SEARCHED;
      NearBoundary(t, from);
      var j :| from <= j <= from + 3 && j <= |t| && Boundary(t, j);
      NextBoundaryIsNear(t, from, j);
    }
  }

  /** Where the removal first finds a pattern. */
  function FirstCopy(t: Bytes, p: Bytes): (r: Option<nat>)
    ensures r.Some? ==> r.value + |p| <= |t|
  {
    FirstAt(t, p, SearchStart(t))
  }

  /** What the removal keeps: the text up to and including the first occurrence of the pattern in
      its last 4000 bytes, or all of it. */
  function Kept(t: Bytes, p: Bytes): Bytes
  {
    if FirstCopy(t, p).Some? then t[..FirstCopy(t, p).value + |p|] else t
  }

  /** The notice follows whether or not anything was removed. */
  method CleanTail(reasoning: Bytes, pattern: Bytes, notice: Bytes) returns (r: Bytes)
    requires Utf8(reasoning) && Utf8(pattern)
    ensures r == if reasoning == [] || Trim(pattern) == [] then reasoning else Kept(reasoning, Trim(pattern)) + notice
  {
    hide Utf8, Trim, FirstAt, NextBoundary, Boundary, OccursAt;
    var trimmed := Trim(pattern);
    r := reasoning;
    if trimmed == [] || reasoning == [] {
      return;
    }
    TrimKeepsUtf8(pattern);
    var searchStart := AlignUp(reasoning, if |reasoning| > SEARCHED then |reasoning| - SEARCHED else 0);
    var first := FirstAt(reasoning, trimmed, searchStart);
    if first.Some? {
      OccurrenceEndsAtBoundary(reasoning, trimmed, first.value);
      var keepEnd := first.value + |trimmed|;
      if keepEnd < |reasoning| && Boundary(reasoning, keepEnd) {
        r := reasoning[..keepEnd];
      } else {
        assert reasoning[..keepEnd] == reasoning;
      }
    }
    r := r + notice;
  }

  lemma SliceOfSlice(t: Bytes, i: nat, j: nat, a: nat, b: nat)
    requires i <= j <= |t| && a <= b <= j - i
    ensures t[i..j][a..b] == t[i + a..i + b]
  {
    assert forall k :: 0 <= k < b - a ==> t[i..j][a..b][k] == t[i + a + k] == t[i + a..i + b][k];
  }

  /** A copied chunk is found again by the removal, and at least two of its three copies go. */
  lemma CopiesAreRemoved(t: Bytes, offset: nat, w: nat, p: Bytes)
    requires Utf8(t) && InReach(t, offset, w) && Copies(t, offset, w) && p == Trim(Chunk(t, offset, w))
    ensures Trim(p) == p && p != []
    ensures FirstCopy(t, p).Some? && FirstCopy(t, p).value + |p| + 2 * w + offset <= |t|
  {
    hide Utf8, Trim, TrimStart, FirstAt, SearchStart, Copies;
    assert Trim(Chunk(t, offset, w)) != [] && offset + 3 * w <= |t| by { CopiesHold(t, offset, w); }
    var chunk := Chunk(t, offset, w);
    TrimIsSlice(chunk);
    TrimTwice(chunk);
    var first, lead := |t| - offset - 3 * w, w - |TrimStart(chunk)|;
    assert t[first..first + w] == chunk by { CopiesHold(t, offset, w); }
    SliceOfSlice(t, first, first + w, lead, lead + |p|);
    assert OccursAt(t, p, first + lead);
    SearchReaches(t, first + lead);
  }

  lemma CopiesHold(t: Bytes, offset: nat, w: nat)
    requires Copies(t, offset, w)
    ensures offset + 3 * w <= |t| && Trim(Chunk(t, offset, w)) != []
    ensures t[|t| - offset - 3 * w..|t| - offset - 2 * w] == Chunk(t, offset, w)
  {
    hide Utf8, Trim;
  }

  lemma LineEnds(l: Bytes)
    requires IsLine(l)
    ensures l != [] && l[0] != 10 && l[|l| - 1] != 10 && TrailingSpace(l) == 0
  {
    hide Utf8, LeadingSpace, TrailingSpace;
    LineStartsBare(l);
    assert TrimEnd(TrimStart(l)) == l;
    NewlineIsSpace(l);
  }

  lemma NewlineIsSpace(s: Bytes)
    requires s != []
    ensures s[0] == 10 ==> LeadingSpace(s) > 0
    ensures s[|s| - 1] == 10 ==> TrailingSpace(s) > 0
  {
  }

  lemma SpaceWithinEnd(a: Bytes, b: Bytes)
    requires Utf8(b) && b != [] && TrailingSpace(a + b) > 0
    ensures TrailingSpace(b) > 0
  {
    var t := a + b;
    var m := TrailingSpace(t);
    EndSpaceIsCharacter(t);
    assert t[|a|] == b[0];
    if m <= |b| {
      assert forall i :: |t| - m <= i < |t| ==> t[i] == b[i - |a|];
    }
  }

  lemma BareSuffix(a: Bytes, b: Bytes)
    requires Utf8(b) && b != [] && TrailingSpace(b) == 0
    ensures TrailingSpace(a + b) == 0
  {
    if TrailingSpace(a + b) > 0 { SpaceWithinEnd(a, b); }
  }

  lemma {:induction false} JoinIsTrimmed(lines: seq<Bytes>)
    requires lines != [] && forall i :: 0 <= i < |lines| ==> IsLine(lines[i])
    ensures lines[0] != [] && Join(lines) != [] && Join(lines)[0] == lines[0][0]
    ensures Trim(Join(lines)) == Join(lines)
    ensures TrailingSpace(Join(lines)) == 0
  {
    hide Utf8, Trim, LeadingSpace, TrailingSpace, IsLine, TrimStart, TrimEnd;
    assert IsLine(lines[0]);
    LineIsText(lines[0]);
    LineEnds(lines[0]);
    LineStartsBare(lines[0]);
    if |lines| > 1 {
      var rest := Join(lines[1..]);
      JoinIsTrimmed(lines[1..]);
      JoinIsUtf8(lines[1..]);
      BareSuffix(lines[0] + [10], rest);
      BarePrefix(lines[0], [10] + rest);
      assert lines[0] + ([10] + rest) == lines[0] + [10] + rest;
    }
    BareIsTrimmed(Join(lines));
  }

  lemma BareIsTrimmed(s: Bytes)
    requires LeadingSpace(s) == 0 && TrailingSpace(s) == 0
    ensures Trim(s) == s
  {
    hide LeadingSpace, TrailingSpace;
  }

  // ---------- where a joined block occurs ----------

  ghost predicate NoNewline(s: Bytes) { forall i :: 0 <= i < |s| ==> s[i] != 10 }

  /** The lines of a text as they stand, untrimmed and with the blank ones. */
  function RawLines(u: Bytes): (r: seq<Bytes>)
    ensures |r| >= 1
    decreases |u|
  {
    var i := FirstNewline(u);
    if i == |u| then [u] else [u[..i]] + RawLines(u[i + 1..])
  }

  predicate EndsWith(s: Bytes, p: Bytes) { |p| <= |s| && s[|s| - |p|..] == p }

  /** The lines begin with the block: all but its last line are equal, the last starts with it. */
  ghost predicate Heads(raw: seq<Bytes>, block: seq<Bytes>)
    requires block != []
  {
    |block| <= |raw|
    && (forall m :: 0 <= m < |block| - 1 ==> raw[m] == block[m])
    && block[|block| - 1] <= raw[|block| - 1]
  }

  /** From line `j` on: one line contains the only line of the block, or the first ends with the
      block's first line and the next ones begin with the rest of it. */
  ghost predicate WrittenAt(raw: seq<Bytes>, block: seq<Bytes>, j: nat)
    requires block != []
  {
    j < |raw| &&
    if |block| == 1 then exists k: nat :: OccursAt(raw[j], block[0], k)
    else EndsWith(raw[j], block[0]) && Heads(raw[j + 1..], block[1..])
  }

  /** Somewhere in the text the block is written. */
  ghost predicate Written(u: Bytes, block: seq<Bytes>)
    requires block != []
  {
    var raw := RawLines(u);
    exists j: nat :: WrittenAt(raw, block, j)
  }

  ghost predicate AllNoNewline(block: seq<Bytes>) { forall m :: 0 <= m < |block| ==> NoNewline(block[m]) }

  lemma FirstNewlineIs(u: Bytes, n: nat)
    requires n < |u| && u[n] == 10 && NoNewline(u[..n])
    ensures FirstNewline(u) == n
  {
    assert forall i :: 0 <= i < n ==> u[i] == u[..n][i];
  }

  lemma FirstNewlineBeyond(u: Bytes, n: nat)
    requires n <= |u| && NoNewline(u[..n])
    ensures FirstNewline(u) >= n
  {
    assert forall i :: 0 <= i < n ==> u[i] == u[..n][i];
  }

  lemma BelowParts(a: Bytes, b: Bytes)
    ensures var p := Below(a, b);
      |p| == |a| + 1 + |b| && p[..|a|] == a && p[|a|] == 10 && p[|a| + 1..] == b
  {
  }

  lemma BelowIs(p: Bytes, a: Bytes, b: Bytes)
    requires |p| == |a| + 1 + |b| && p[..|a|] == a && p[|a|] == 10 && p[|a| + 1..] == b
    ensures p == Below(a, b)
  {
  }

  lemma NextLines(u: Bytes)
    requires FirstNewline(u) < |u|
    ensures RawLines(u) == [u[..FirstNewline(u)]] + RawLines(u[FirstNewline(u) + 1..])
  {
    hide FirstNewline;
  }

  lemma HeadsNext(first: Bytes, raw: seq<Bytes>, block: seq<Bytes>)
    requires |block| >= 2
    ensures Heads([first] + raw, block) <==> first == block[0] && Heads(raw, block[1..])
  {
    var all, rest := [first] + raw, block[1..];
    if Heads(all, block) {
      assert all[0] == block[0];
      forall m | 0 <= m < |rest| - 1 ensures raw[m] == rest[m] { assert all[m + 1] == block[m + 1]; }
      assert all[|block| - 1] == raw[|rest| - 1];
    }
    if first == block[0] && Heads(raw, rest) {
      forall m | 0 <= m < |block| - 1 ensures all[m] == block[m] {
        if m > 0 { assert raw[m - 1] == rest[m - 1]; }
      }
      assert all[|block| - 1] == raw[|rest| - 1];
    }
  }

  lemma JoinNext(block: seq<Bytes>)
    requires |block| >= 2
    ensures Join(block) == Below(block[0], Join(block[1..]))
  {
  }

  /** A text starts with the joined block exactly when its lines begin with the block. */
  lemma {:induction false} StartsIff(u: Bytes, block: seq<Bytes>)
    requires block != [] && AllNoNewline(block)
    ensures Join(block) <= u <==> Heads(RawLines(u), block)
    decreases |block|
  {
    hide FirstNewline, Join, RawLines, Heads, Below;
    if |block| == 1 {
      StartsWithLine(u, block);
    } else {
      JoinNext(block);
      var a, rest, n := block[0], Join(block[1..]), FirstNewline(u);
      assert NoNewline(a);
      if n < |u| {
        NextLines(u);
        HeadsNext(u[..n], RawLines(u[n + 1..]), block);
        StartsIff(u[n + 1..], block[1..]);
        LineThenRest(u, a, rest);
      } else {
        OneLine(u, block);
        BelowParts(a, rest);
      }
    }
  }

  lemma StartsWithLine(u: Bytes, block: seq<Bytes>)
    requires |block| == 1 && NoNewline(block[0])
    ensures Join(block) <= u <==> Heads(RawLines(u), block)
  {
    hide FirstNewline;
    var a, n := block[0], FirstNewline(u);
    if a <= u {
      assert u[..|a|] == a;
      FirstNewlineBeyond(u, |a|);
      assert u[..n][..|a|] == a;
    }
    assert RawLines(u)[0] == u[..n];
  }

  lemma OneLine(u: Bytes, block: seq<Bytes>)
    requires FirstNewline(u) == |u| && |block| >= 2
    ensures !Heads(RawLines(u), block)
    ensures forall p, i: nat :: p <= u && i < |p| ==> p[i] != 10
  {
    forall p, i: nat | p <= u && i < |p| ensures p[i] != 10 { assert p[i] == u[i]; }
  }

  lemma LineThenRest(u: Bytes, a: Bytes, rest: Bytes)
    requires NoNewline(a) && FirstNewline(u) < |u|
    ensures Below(a, rest) <= u <==> u[..FirstNewline(u)] == a && rest <= u[FirstNewline(u) + 1..]
  {
    hide FirstNewline, Below;
    var n, p := FirstNewline(u), Below(a, rest);
    BelowParts(a, rest);
    if p <= u {
      PrefixParts(u, p, |a|);
      FirstNewlineIs(u, |a|);
    }
    if u[..n] == a && rest <= u[n + 1..] {
      var q := u[..n + 1 + |rest|];
      PrefixParts(u, q, n);
      BelowIs(q, a, rest);
    }
  }

  /** A prefix of a text, cut at a position of it. */
  lemma PrefixParts(u: Bytes, p: Bytes, n: nat)
    requires p <= u && n < |p|
    ensures u[..n] == p[..n] && u[n] == p[n] && p[n + 1..] == u[n + 1..|p|] == u[n + 1..][..|p| - n - 1]
    ensures p[n + 1..] <= u[n + 1..]
  {
  }

  /** An occurrence of the joined block is a place where the block is written. */
  lemma {:induction false} WrittenWhere(u: Bytes, block: seq<Bytes>, i: nat) returns (j: nat)
    requires block != [] && AllNoNewline(block) && OccursAt(u, Join(block), i)
    ensures WrittenAt(RawLines(u), block, j)
    decreases |u|
  {
    hide FirstNewline, Join, RawLines, Heads;
    var n := FirstNewline(u);
    if i > n {
      NextLines(u);
      var rest := u[n + 1..];
      SliceOfSlice(u, n + 1, |u|, i - n - 1, i - n - 1 + |Join(block)|);
      assert u[n + 1..|u|] == rest;
      j := WrittenWhere(rest, block, i - n - 1);
      WrittenLater(u[..n], RawLines(rest), block, j);
      j := j + 1;
    } else {
      WrittenFirst(u, block, i);
      j := 0;
    }
  }

  lemma WrittenLater(first: Bytes, raw: seq<Bytes>, block: seq<Bytes>, j: nat)
    requires block != []
    ensures WrittenAt([first] + raw, block, j + 1) <==> WrittenAt(raw, block, j)
  {
    hide Heads;
    var all := [first] + raw;
    if j < |raw| {
      assert all[j + 1] == raw[j] && all[j + 2..] == raw[j + 1..];
    }
  }

  lemma WrittenFirst(u: Bytes, block: seq<Bytes>, i: nat)
    requires block != [] && AllNoNewline(block) && OccursAt(u, Join(block), i) && i <= FirstNewline(u)
    ensures WrittenAt(RawLines(u), block, 0)
  {
    hide FirstNewline, RawLines, Heads, Join, Below;
    var a, n, p := block[0], FirstNewline(u), Join(block);
    assert NoNewline(a);
    FirstRawLine(u);
    if |block| == 1 {
      assert p == a by { JoinOne(block); }
      InFirstLine(u, a, i);
    } else {
      JoinNext(block);
      var rest := Join(block[1..]);
      SplitAtNewline(u, a, rest, i);
      NextLines(u);
      StartsIff(u[n + 1..], block[1..]);
      assert RawLines(u)[1..] == RawLines(u[n + 1..]);
    }
  }

  lemma JoinOne(block: seq<Bytes>)
    requires |block| == 1
    ensures Join(block) == block[0]
  {
  }

  lemma FirstRawLine(u: Bytes)
    ensures RawLines(u)[0] == u[..FirstNewline(u)]
  {
    hide FirstNewline;
  }

  lemma OccurrenceAt(u: Bytes, p: Bytes, i: nat)
    requires OccursAt(u, p, i)
    ensures forall k :: i <= k < i + |p| ==> u[k] == p[k - i]
  {
    var o := u[i..i + |p|];
    assert forall k :: i <= k < i + |p| ==> u[k] == o[k - i];
  }

  lemma InFirstLine(u: Bytes, a: Bytes, i: nat)
    requires NoNewline(a) && OccursAt(u, a, i) && i <= FirstNewline(u)
    ensures OccursAt(u[..FirstNewline(u)], a, i)
  {
    hide FirstNewline;
    OccurrenceAt(u, a, i);
    SliceOfSlice(u, 0, FirstNewline(u), i, i + |a|);
  }

  lemma OccursIsPrefix(u: Bytes, p: Bytes, i: nat)
    requires i <= |u|
    ensures OccursAt(u, p, i) <==> p <= u[i..]
  {
    if i + |p| <= |u| { assert u[i..][..|p|] == u[i..i + |p|]; }
  }

  lemma FromWithin(u: Bytes, i: nat)
    requires i <= FirstNewline(u)
    ensures FirstNewline(u[i..]) == FirstNewline(u) - i
    ensures u[i..][..FirstNewline(u) - i] == u[..FirstNewline(u)][i..]
    ensures FirstNewline(u) < |u| ==> u[i..][FirstNewline(u) - i + 1..] == u[FirstNewline(u) + 1..]
  {
    hide FirstNewline;
    var n, v := FirstNewline(u), u[i..];
    assert forall k :: 0 <= k < n - i ==> v[k] == u[i + k];
    if n < |u| {
      assert v[n - i] == u[n];
      FirstNewlineIs(v, n - i);
    } else {
      FirstNewlineBeyond(v, n - i);
    }
  }

  /** An occurrence of a line, a newline and the rest that starts in the first line of the text
      has its newline at the end of that line. */
  lemma SplitAtNewline(u: Bytes, a: Bytes, rest: Bytes, i: nat)
    requires NoNewline(a) && OccursAt(u, Below(a, rest), i) && i <= FirstNewline(u)
    ensures FirstNewline(u) < |u| && EndsWith(u[..FirstNewline(u)], a) && rest <= u[FirstNewline(u) + 1..]
  {
    hide FirstNewline, Below, OccursAt;
    var n, v := FirstNewline(u), u[i..];
    OccursIsPrefix(u, Below(a, rest), i);
    BelowParts(a, rest);
    PrefixParts(v, Below(a, rest), |a|);
    assert FirstNewline(v) == |a| by { FirstNewlineIs(v, |a|); }
    FromWithin(u, i);
    LineThenRest(v, a, rest);
  }

  /** And wherever the block is written, its lines joined by newlines occur. */
  lemma {:induction false} OccursWhere(u: Bytes, block: seq<Bytes>, j: nat) returns (i: nat)
    requires block != [] && AllNoNewline(block) && WrittenAt(RawLines(u), block, j)
    ensures OccursAt(u, Join(block), i)
    decreases |u|
  {
    hide FirstNewline, RawLines, Heads, Join, Below;
    var n := FirstNewline(u);
    FirstRawLine(u);
    if n == |u| { LastRawLine(u); }
    if j > 0 {
      NextLines(u);
      WrittenLater(u[..n], RawLines(u[n + 1..]), block, j - 1);
      var k := OccursWhere(u[n + 1..], block, j - 1);
      i := n + 1 + k;
      SliceOfSlice(u, n + 1, |u|, k, k + |Join(block)|);
      assert u[n + 1..|u|] == u[n + 1..];
    } else if |block| == 1 {
      JoinOne(block);
      i :| OccursAt(u[..n], block[0], i);
      SliceOfSlice(u, 0, n, i, i + |block[0]|);
    } else {
      JoinNext(block);
      assert n < |u| by { HeadsSome(RawLines(u)[1..], block[1..]); }
      NextLines(u);
      assert RawLines(u)[1..] == RawLines(u[n + 1..]);
      StartsIff(u[n + 1..], block[1..]);
      i := n - |block[0]|;
      assert NoNewline(block[0]);
      JoinAtNewline(u, block[0], Join(block[1..]));
    }
  }

  lemma LastRawLine(u: Bytes)
    requires FirstNewline(u) == |u|
    ensures |RawLines(u)| == 1
  {
  }

  lemma HeadsSome(raw: seq<Bytes>, block: seq<Bytes>)
    requires block != [] && Heads(raw, block)
    ensures raw != []
  {
  }

  lemma JoinAtNewline(u: Bytes, a: Bytes, rest: Bytes)
    requires NoNewline(a) && FirstNewline(u) < |u|
    requires EndsWith(u[..FirstNewline(u)], a) && rest <= u[FirstNewline(u) + 1..]
    ensures OccursAt(u, Below(a, rest), FirstNewline(u) - |a|)
  {
    hide FirstNewline, Below, OccursAt;
    var i := FirstNewline(u) - |a|;
    FromWithin(u, i);
    LineThenRest(u[i..], a, rest);
    OccursIsPrefix(u, Below(a, rest), i);
  }
  // ---------- what the removal finds, and how much goes ----------

  lemma OccursInTail(t: Bytes, p: Bytes, start: nat, end: nat, i: nat)
    requires start <= end <= |t|
    ensures OccursAt(t[start..end], p, i) <==> start + i + |p| <= end && OccursAt(t, p, start + i)
  {
    if start + i + |p| <= end { SliceOfSlice(t, start, end, i, i + |p|); }
  }

  /** The removal finds the joined lines of a block exactly when the block is written in the lines,
      as they stand, of the part it searches. */
  lemma FoundIff(t: Bytes, block: seq<Bytes>)
    requires block != [] && AllNoNewline(block)
    ensures FirstCopy(t, Join(block)).Some? <==> Written(t[SearchStart(t)..], block)
  {
    hide Join, RawLines, WrittenAt, AllNoNewline, OccursAt, FirstAt;
    var p, s := Join(block), SearchStart(t);
    assert t[s..|t|] == t[s..];
    if FirstCopy(t, p).Some? {
      var v := FirstCopy(t, p).value;
      OccursInTail(t, p, s, |t|, v - s);
      var j := WrittenWhere(t[s..], block, v - s);
    }
    if Written(t[s..], block) {
      var j: nat :| WrittenAt(RawLines(t[s..]), block, j);
      var i := OccursWhere(t[s..], block, j);
      OccursInTail(t, p, s, |t|, i);
    }
  }

  /** It removes something exactly when the block is written there and does not end the text. */
  lemma RemovesIff(t: Bytes, block: seq<Bytes>)
    requires block != [] && AllNoNewline(block) && SearchStart(t) < |t|
    ensures |Kept(t, Join(block))| < |t| <==> Written(t[SearchStart(t)..|t| - 1], block)
  {
    hide Join, RawLines, WrittenAt, AllNoNewline, OccursAt, FirstAt;
    var p, s, e := Join(block), SearchStart(t), |t| - 1;
    if |Kept(t, p)| < |t| {
      var v := FirstCopy(t, p).value;
      OccursInTail(t, p, s, e, v - s);
      var j := WrittenWhere(t[s..e], block, v - s);
    }
    if Written(t[s..e], block) {
      var j: nat :| WrittenAt(RawLines(t[s..e]), block, j);
      var i := OccursWhere(t[s..e], block, j);
      OccursInTail(t, p, s, e, i);
    }
  }

  /** Whatever copy lies in the last 3997 bytes, nothing after it is kept. */
  lemma NothingAfterCopy(t: Bytes, p: Bytes, i: nat)
    requires Utf8(t) && OccursAt(t, p, i) && |t| - i < 3997
    ensures |Kept(t, p)| <= i + |p| <= |t|
  {
    hide Utf8, FirstAt, SearchStart;
    SearchReaches(t, i);
  }

  /** What is kept is the text, or its beginning up to the end of a copy of the pattern in the last
      4000 bytes. */
  lemma KeptReads(t: Bytes, p: Bytes)
    ensures Kept(t, p) == t || exists i :: 0 <= i && |t| - i <= 4000 && OccursAt(t, p, i) && Kept(t, p) == t[..i + |p|]
    ensures Kept(t, p) == t ==> forall i :: 0 <= i && |t| - i < 3997 && OccursAt(t, p, i) && Utf8(t) ==> i + |p| == |t|
  {
    hide Utf8, FirstAt, NextBoundary, Boundary;
    if FirstCopy(t, p).Some? {
      assert SearchStart(t) <= FirstCopy(t, p).value;
    }
    forall i | 0 <= i && |t| - i < 3997 && OccursAt(t, p, i) && Utf8(t) && Kept(t, p) == t ensures i + |p| == |t| {
      NothingAfterCopy(t, p, i);
    }
  }

  // ---------- lines of a text ----------

  lemma {:induction false} LinesHaveNoNewline(t: Bytes)
    ensures AllNoNewline(NonBlankLines(t))
    decreases |t|
  {
    hide FirstNewline, NonBlankLines, Trim;
    var i := FirstNewline(t);
    TrimIsSlice(t[..i]);
    SliceNoNewline(t, i);
    if i < |t| {
      TakeLine(t);
      LinesHaveNoNewline(t[i + 1..]);
    } else {
      LastLine(t);
    }
  }

  lemma SliceNoNewline(t: Bytes, i: nat)
    requires i == FirstNewline(t)
    ensures forall a, b :: 0 <= a <= b <= i ==> NoNewline(t[..i][a..b])
  {
    hide FirstNewline;
  }

  /** The lines stand in the text at these places, one after another with something between. */
  ghost predicate Stand(t: Bytes, lines: seq<Bytes>, ps: seq<nat>)
  {
    |ps| == |lines|
    && (forall k :: 0 <= k < |ps| ==> OccursAt(t, lines[k], ps[k]))
    && (forall k :: 0 < k < |ps| ==> ps[k - 1] + |lines[k - 1]| < ps[k])
  }

  function ShiftAll(ps: seq<nat>, n: nat): (r: seq<nat>)
    ensures |r| == |ps| && forall k :: 0 <= k < |r| ==> r[k] == ps[k] + n
  {
    seq(|ps|, k requires 0 <= k < |ps| => ps[k] + n)
  }

  lemma StandLater(t: Bytes, start: nat, lines: seq<Bytes>, ps: seq<nat>)
    requires start <= |t| && Stand(t[start..], lines, ps)
    ensures Stand(t, lines, ShiftAll(ps, start))
  {
    hide OccursAt;
    assert t[start..|t|] == t[start..];
    forall k | 0 <= k < |ps| ensures OccursAt(t, lines[k], ShiftAll(ps, start)[k]) {
      OccursInTail(t, lines[k], start, |t|, ps[k]);
    }
  }

  lemma StandFirst(t: Bytes, p: Bytes, lead: nat, lines: seq<Bytes>, ps: seq<nat>)
    requires Stand(t, lines, ps) && OccursAt(t, p, lead) && (ps != [] ==> lead + |p| < ps[0])
    ensures Stand(t, [p] + lines, [lead] + ps)
  {
    hide OccursAt;
    var ls, qs := [p] + lines, [lead] + ps;
    forall k | 0 <= k < |qs| ensures OccursAt(t, ls[k], qs[k]) {
      if k > 0 { assert ls[k] == lines[k - 1] && qs[k] == ps[k - 1]; }
    }
    forall k | 0 < k < |qs| ensures qs[k - 1] + |ls[k - 1]| < qs[k] {
      assert ls[k] == lines[k - 1] && qs[k] == ps[k - 1];
      if k > 1 { assert ls[k - 1] == lines[k - 2] && qs[k - 1] == ps[k - 2]; }
    }
  }

  lemma LineStands(t: Bytes, i: nat)
    requires i <= |t|
    ensures var lead := i - |TrimStart(t[..i])|;
      lead >= 0 && lead + |Trim(t[..i])| <= i && OccursAt(t, Trim(t[..i]), lead)
  {
    hide Trim, TrimStart, OccursAt;
    TrimIsSlice(t[..i]);
    var p, lead := Trim(t[..i]), i - |TrimStart(t[..i])|;
    assert t[0..i] == t[..i];
    assert OccursAt(t[..i], p, lead) by { SliceOccurs(t[..i], p, lead); }
    OccursInTail(t, p, 0, i, lead);
  }

  lemma SliceOccurs(t: Bytes, p: Bytes, i: nat)
    requires i + |p| <= |t| && p == t[i..i + |p|]
    ensures OccursAt(t, p, i)
  {
  }

  lemma {:induction false} Positions(t: Bytes) returns (ps: seq<nat>)
    ensures Stand(t, NonBlankLines(t), ps)
    decreases |t|
  {
    hide FirstNewline, NonBlankLines, Trim, TrimStart, OccursAt, Stand;
    var i := FirstNewline(t);
    var p, lead := Trim(t[..i]), i - |TrimStart(t[..i])|;
    LineStands(t, i);
    var later: seq<Bytes> := [];
    ps := [];
    if i == |t| {
      LastLine(t);
      NoneStand(t);
    } else {
      TakeLine(t);
      var qs := Positions(t[i + 1..]);
      later := NonBlankLines(t[i + 1..]);
      StandLater(t, i + 1, later, qs);
      ps := ShiftAll(qs, i + 1);
    }
    if p == [] {
      assert [] + later == later;
    } else {
      StandFirst(t, p, lead, later, ps);
      ps := [lead] + ps;
      assert [p] + [] == [p];
    }
  }

  lemma NoneStand(t: Bytes)
    ensures Stand(t, [], [])
  {
  }

  /** The places of a pattern, and what is removed: nothing is kept after the end of any of them in
      the last 3997 bytes. */
  ghost predicate RemovedAfter(t: Bytes, p: Bytes, ps: seq<nat>)
  {
    (forall k :: 0 <= k < |ps| ==> OccursAt(t, p, ps[k]))
    && (forall k :: 0 < k < |ps| ==> ps[k - 1] + |p| < ps[k])
    && (forall k :: 0 <= k < |ps| && |t| - ps[k] < 3997 ==> |Kept(t, p)| <= ps[k] + |p| <= |t|)
  }

  lemma StandRemoved(t: Bytes, p: Bytes, ps: seq<nat>)
    requires Utf8(t) && forall k :: 0 <= k < |ps| ==> OccursAt(t, p, ps[k])
    requires forall k :: 0 < k < |ps| ==> ps[k - 1] + |p| < ps[k]
    ensures RemovedAfter(t, p, ps)
  {
    hide Utf8, OccursAt, Kept;
    forall k | 0 <= k < |ps| && |t| - ps[k] < 3997 ensures |Kept(t, p)| <= ps[k] + |p| <= |t| {
      NothingAfterCopy(t, p, ps[k]);
    }
  }

  /** A line repeated four times stands at four places, one after another; of those in the last
      3997 bytes all but the first are removed, with all that follows it. */
  lemma LineLoopRemoved(t: Bytes) returns (ps: seq<nat>)
    requires Utf8(t) && LineLoop(NonBlankLines(t))
    ensures |ps| == 4 && RemovedAfter(t, NonBlankLines(t)[|NonBlankLines(t)| - 1], ps)
  {
    hide Utf8, NonBlankLines, OccursAt, RemovedAfter;
    var lines := NonBlankLines(t);
    var n, p := |lines|, lines[|lines| - 1];
    var all := Positions(t);
    ps := all[n - 4..];
    forall k | 0 <= k < 4 ensures ps[k] == all[n - 4 + k] && lines[n - 4 + k] == p && OccursAt(t, p, ps[k]) {
      assert OccursAt(t, lines[n - 4 + k], all[n - 4 + k]);
    }
    forall k | 0 < k < 4 ensures ps[k - 1] + |p| < ps[k] {
      assert all[n - 4 + k - 1] + |lines[n - 4 + k - 1]| < all[n - 4 + k];
    }
    StandRemoved(t, p, ps);
  }

  /** A cycle written cleanly, one line under the other and nothing else, stands at three places that
      end the text; of those in the last 3997 bytes all but the first are removed. */
  lemma CleanCycleRemoved(before: Bytes, block: seq<Bytes>) returns (ps: seq<nat>)
    requires var p := Join(block); Utf8(Below(Below(Below(before, p), p), p))
    ensures var p := Join(block);
      var t := Below(Below(Below(before, p), p), p);
      |ps| == 3 && ps[0] == |before| + 1 && ps[2] + |p| == |t| && RemovedAfter(t, p, ps)
  {
    hide Utf8, Join, Below, Kept, OccursAt, RemovedAfter;
    var p := Join(block);
    var once := Below(before, p);
    var twice := Below(once, p);
    LastBelow(before, p);
    LastBelow(once, p);
    LastBelow(twice, p);
    StillOccurs(once, p, p, |before| + 1);
    StillOccurs(twice, p, p, |before| + 1);
    StillOccurs(twice, p, p, |once| + 1);
    ps := [|before| + 1, |once| + 1, |twice| + 1];
    StandRemoved(Below(twice, p), p, ps);
  }

  lemma LastBelow(a: Bytes, p: Bytes)
    ensures |Below(a, p)| == |a| + 1 + |p| && OccursAt(Below(a, p), p, |a| + 1)
  {
    assert Below(a, p)[|a| + 1..|a| + 1 + |p|] == p;
  }

  lemma StillOccurs(a: Bytes, b: Bytes, p: Bytes, i: nat)
    requires OccursAt(a, p, i)
    ensures OccursAt(Below(a, b), p, i)
  {
    assert Below(a, b)[i..i + |p|] == a[i..i + |p|];
  }

  // ---------- detection and removal together ----------

  lemma SearchStartInside(t: Bytes)
    requires Utf8(t) && t != []
    ensures SearchStart(t) < |t|
  {
    SearchReaches(t, |t| - 1);
  }

  /** Of every pattern that is found in lines, joined from a block of the last ones, something is
      removed if and only if the block stands somewhere in the searched part, its lines one under the
      other with nothing between them but a newline, before the end. Whatever else separates them,
      white space or a blank line, nothing is removed. */
  lemma LinesRemovedIff(t: Bytes, p: Bytes) returns (block: seq<Bytes>)
    requires Utf8(t) && Finds(t, p) && (LineLoop(NonBlankLines(t)) || HasCycle(NonBlankLines(t)))
    ensures 1 <= |block| <= |NonBlankLines(t)| && block == NonBlankLines(t)[|NonBlankLines(t)| - |block|..]
    ensures p == Join(block) && SearchStart(t) < |t|
    ensures |Kept(t, p)| < |t| <==> Written(t[SearchStart(t)..|t| - 1], block)
  {
    hide Utf8, NonBlankLines, Kept, Written, SearchStart, HasCopies, AllNoNewline, Cycle;
    var lines := NonBlankLines(t);
    SearchStartInside(t);
    LinesHaveNoNewline(t);
    if LineLoop(lines) {
      block := lines[|lines| - 1..];
      JoinOne(block);
    } else {
      var k :| FirstCycle(lines, k) && p == Join(lines[|lines| - k..]);
      block := lines[|lines| - k..];
    }
    SuffixNoNewline(lines, |lines| - |block|);
    RemovesIff(t, block);
  }

  lemma SuffixNoNewline(lines: seq<Bytes>, n: nat)
    requires AllNoNewline(lines) && n <= |lines|
    ensures AllNoNewline(lines[n..])
  {
    hide NoNewline;
  }

  /** What the reader does to the reasoning at the end of a stream that the guard broke. Of a copied
      chunk at least two copies are removed. */
  method BreakLoop(reasoning: Bytes, notice: Bytes) returns (r: Bytes, pattern: Option<Bytes>)
    requires Utf8(reasoning)
    ensures pattern.Some? <==> |reasoning| > 60 && Repetitive(reasoning)
    ensures pattern.None? ==> r == reasoning
    ensures pattern.Some? ==>
      Finds(reasoning, pattern.value) && r == Kept(reasoning, Trim(pattern.value)) + notice
    ensures pattern.Some? && !LineLoop(NonBlankLines(reasoning)) && !HasCycle(NonBlankLines(reasoning)) ==>
      |r| + 20 <= |reasoning| + |notice|
  {
    hide Utf8, Trim, NonBlankLines, Join, Copies, FirstCopied, FirstCopy, Chunk, LineLoop, HasCycle, HasCopies, IsLine;
    r, pattern := reasoning, None;
    if |reasoning| > 60 {
      pattern := DetectRepetition(reasoning);
      if pattern.Some? {
        r := CleanTail(reasoning, pattern.value, notice);
        ghost var lines := NonBlankLines(reasoning);
        if !LineLoop(lines) && !HasCycle(lines) {
          ghost var o: nat, w: nat :| FirstCopied(reasoning, o, w, pattern.value);
          CopiedIsCopies(reasoning, o, w, pattern.value);
          CopiesAreRemoved(reasoning, o, w, pattern.value);
        }
      }
    }
  }

  /** The patterns are already trimmed. */
  lemma PatternIsTrimmed(t: Bytes, p: Bytes)
    requires Utf8(t) && Finds(t, p)
    ensures Trim(p) == p && p != []
  {
    hide Utf8, NonBlankLines, Trim, Join, IsLine, HasCopies, Cycle, Copies;
    var lines := NonBlankLines(t);
    LinesAreTrimmed(t);
    if LineLoop(lines) {
      LineIsTrimmed(p);
    } else if HasCycle(lines) {
      var k :| FirstCycle(lines, k) && p == Join(lines[|lines| - k..]);
      JoinIsTrimmed(lines[|lines| - k..]);
    } else {
      var o: nat, w: nat :| FirstCopied(t, o, w, p);
      CopiedIsCopies(t, o, w, p);
      CopiesAreRemoved(t, o, w, p);
    }
  }

  lemma LineIsTrimmed(l: Bytes)
    requires IsLine(l)
    ensures Trim(l) == l && l != []
  {
    hide Utf8, Trim;
  }

  // ---------- what the removal leaves ----------

  /** Every newline inside the text has white space beside it: blank lines, indentation, trailing
      blanks or carriage returns. */
  predicate Spaced(t: Bytes)
  {
    forall k :: 0 < k < |t| - 1 && t[k] == 10 ==> TrailingSpace(t[..k]) > 0 || LeadingSpace(t[k + 1..]) > 0
  }

  /** In such a text no block of two or more lines is found again, so nothing is removed. */
  lemma SpacedLinesStay(t: Bytes, block: seq<Bytes>)
    requires Spaced(t) && |block| >= 2 && forall i :: 0 <= i < |block| ==> IsLine(block[i])
    ensures Kept(t, Join(block)) == t
  {
    hide Utf8, IsLine, FirstAt, SearchStart, OccursAt, Join, Below, TrailingSpace, LeadingSpace, Trim;
    var p, a, rest := Join(block), block[0], Join(block[1..]);
    JoinNext(block);
    assert IsLine(a);
    RestIsLine(block[1..]);
    LineIsTrimmed(a);
    LineIsTrimmed(rest);
    if FirstCopy(t, p).Some? {
      var v := FirstCopy(t, p).value;
      BareNewline(t, a, rest, v);
    }
  }

  lemma RestIsLine(block: seq<Bytes>)
    requires block != [] && forall i :: 0 <= i < |block| ==> IsLine(block[i])
    ensures IsLine(Join(block))
  {
    hide Utf8, Trim, Join;
    JoinIsTrimmed(block);
    JoinIsUtf8(block);
  }

  lemma BareNewline(t: Bytes, a: Bytes, rest: Bytes, v: nat)
    requires IsLine(a) && IsLine(rest) && OccursAt(t, Below(a, rest), v)
    ensures !Spaced(t)
  {
    hide Utf8, IsLine, TrailingSpace, LeadingSpace, Trim, Below;
    var p, k := Below(a, rest), v + |a|;
    LineIsText(a);
    LineIsText(rest);
    LineEnds(a);
    LineStartsBare(rest);
    BelowParts(a, rest);
    OccurrenceAt(t, p, v);
    OccurrenceParts(t, a, rest, v);
    BareSuffix(t[..v], a);
    BarePrefix(rest, t[v + |p|..]);
    assert t[k] == 10 && 0 < k < |t| - 1;
  }

  lemma OccurrenceParts(t: Bytes, a: Bytes, rest: Bytes, v: nat)
    requires OccursAt(t, Below(a, rest), v)
    ensures var k, e := v + |a|, v + |Below(a, rest)|;
      e == k + 1 + |rest| <= |t| && t[..k] == t[..v] + a && t[k + 1..] == rest + t[e..]
  {
    hide Below;
    var p := Below(a, rest);
    var k, e := v + |a|, v + |p|;
    BelowParts(a, rest);
    SliceOfSlice(t, v, e, 0, |a|);
    SliceOfSlice(t, v, e, |a| + 1, |p|);
    assert t[v..k] == p[0..|a|] == a;
    assert t[k + 1..e] == p[|a| + 1..|p|] == rest;
  }

  // ---------- a family that is detected and not cleaned ----------

  /** Two lines in turn, a blank line inside each pair, three times over. */
  function Alternating(a: Bytes, b: Bytes): Bytes
  {
    var pair := Below(a, Below([], b));
    Below(Below(pair, pair), pair)
  }

  lemma {:induction false} RawBelow(a: Bytes, b: Bytes)
    ensures RawLines(Below(a, b)) == RawLines(a) + RawLines(b)
    decreases |a|
  {
    hide FirstNewline, RawLines, Below;
    var t, i := Below(a, b), FirstNewline(a);
    NewlineAfter(a, b);
    BelowSlices(a, b, i);
    NextLines(t);
    if i == |a| {
      OneRawLine(a);
      BelowParts(a, b);
    } else {
      NextLines(a);
      RawBelow(a[i + 1..], b);
    }
  }

  lemma BelowSlices(a: Bytes, b: Bytes, i: nat)
    requires i <= |a|
    ensures i < |Below(a, b)| && Below(a, b)[..i] == a[..i]
    ensures i < |a| ==> Below(a, b)[i + 1..] == Below(a[i + 1..], b)
  {
  }

  lemma OneRawLine(a: Bytes)
    requires FirstNewline(a) == |a|
    ensures RawLines(a) == [a] && a[..|a|] == a
  {
  }

  lemma LineAlone(l: Bytes)
    requires IsLine(l) && NoNewline(l)
    ensures RawLines(l) == [l] && NonBlankLines(l) == [l]
  {
    hide Utf8, Trim, FirstNewline;
    assert l[..|l|] == l;
    FirstNewlineBeyond(l, |l|);
    LastLine(l);
  }

  lemma NothingAlone()
    ensures RawLines([]) == [[]] && NonBlankLines([]) == []
  {
    var e: Bytes := [];
    assert e[..0] == e;
    LastLine(e);
  }

  lemma AlternatingLines(a: Bytes, b: Bytes)
    requires IsLine(a) && IsLine(b) && NoNewline(a) && NoNewline(b)
    ensures NonBlankLines(Alternating(a, b)) == [a, b, a, b, a, b]
    ensures RawLines(Alternating(a, b)) == [a, [], b, a, [], b, a, [], b]
  {
    hide IsLine, NoNewline, RawLines, NonBlankLines, Below;
    LineAlone(a);
    LineAlone(b);
    NothingAlone();
    var pair := Below(a, Below([], b));
    RawBelow([], b);
    RawBelow(a, Below([], b));
    RawBelow(pair, pair);
    RawBelow(Below(pair, pair), pair);
    LinesBelow([], b);
    LinesBelow(a, Below([], b));
    LinesBelow(pair, pair);
    LinesBelow(Below(pair, pair), pair);
  }

  lemma AlternatingCycle(a: Bytes, b: Bytes)
    requires a != b
    ensures var lines := [a, b, a, b, a, b];
      !LineLoop(lines) && FirstCycle(lines, 2) && HasCycle(lines) && lines[4..] == [a, b]
      && forall k :: FirstCycle(lines, k) ==> k == 2
  {
    var lines := [a, b, a, b, a, b];
    assert lines[0..2] == [a, b] && lines[2..4] == [a, b] && lines[4..] == [a, b];
    assert Cycle(lines, 2);
    assert FirstCycle(lines, 2);
  }

  lemma EndsAndStarts(a: Bytes, b: Bytes)
    ensures EndsWith(b, a) && b <= a ==> a == b
  {
  }

  lemma NotWrittenThere(a: Bytes, b: Bytes, j: nat)
    requires a != [] && b != [] && a != b
    ensures !WrittenAt([a, [], b, a, [], b, a, [], b], [a, b], j)
  {
    var raw: seq<Bytes> := [a, [], b, a, [], b, a, [], b];
    var block := [a, b];
    assert block[1..] == [b];
    if j < 8 {
      assert raw[j + 1..][0] == raw[j + 1];
      EndsAndStarts(a, b);
    }
  }

  /** Every such text over sixty bytes is found to repeat itself, its pattern is the two lines, and
      none of the copies is removed. */
  lemma AlternatingStays(a: Bytes, b: Bytes)
    requires IsLine(a) && IsLine(b) && NoNewline(a) && NoNewline(b) && a != b && |Alternating(a, b)| > 60
    ensures Repetitive(Alternating(a, b)) && Finds(Alternating(a, b), Join([a, b]))
    ensures forall p :: Finds(Alternating(a, b), p) ==> p == Join([a, b])
    ensures Kept(Alternating(a, b), Join([a, b])) == Alternating(a, b)
  {
    hide IsLine, NonBlankLines, RawLines, Alternating, Join, LineLoop, FirstCycle, HasCycle, HasCopies, FirstAt, SearchStart, WrittenAt;
    var t := Alternating(a, b);
    AlternatingLines(a, b);
    AlternatingCycle(a, b);
    LineIsTrimmed(a);
    LineIsTrimmed(b);
    if FirstCopy(t, Join([a, b])).Some? {
      var j := WrittenWhere(t, [a, b], FirstCopy(t, Join([a, b])).value);
      NotWrittenThere(a, b, j);
    }
  }

  /** The lines of the family are easy to come by: any printable ones. */
  lemma PrintableIsLine(l: Bytes)
    requires l != [] && forall i :: 0 <= i < |l| ==> 0x21 <= l[i] <= 0x7E
    ensures IsLine(l) && NoNewline(l)
  {
    hide Utf8, LeadingSpace, TrailingSpace;
    PrintableIsUtf8(l);
    assert LeadingSpace(l) == 0 && TrailingSpace(l) == 0 by { PrintableIsBare(l); }
    BareIsTrimmed(l);
  }

  lemma PrintableIsBare(l: Bytes)
    requires l != [] && 0x21 <= l[0] <= 0x7E && 0x21 <= l[|l| - 1] <= 0x7E
    ensures LeadingSpace(l) == 0 && TrailingSpace(l) == 0
  {
  }

  lemma {:induction false} PrintableIsUtf8(l: Bytes)
    requires forall i :: 0 <= i < |l| ==> 0x21 <= l[i] <= 0x7E
    ensures Utf8(l)
  {
    if l != [] { PrintableIsUtf8(l[1..]); }
  }
}
