/** The guard against reasoning that repeats itself: the search for a pattern at the end of the
    text. Text is the sequence of its UTF-8 bytes. */
module Repetition {
  import opened Protocol
  import Stream

  type Byte = b: int | 0 <= b < 0x100
  type Bytes = seq<Byte>

  const MIN_TEXT: nat := 30
  const TAIL: nat := 800
  const MAX_OFFSET: nat := 20
  const MIN_WINDOW: nat := 10
  const MAX_WINDOW: nat := 120
  const SEARCHED: nat := 4000

  // ---------- UTF-8 ----------

  predicate Continues(b: Byte) { 0x80 <= b < 0xC0 }

  /** The length of the well-formed character the bytes start with; 0 when there is none. */
  function CharLength(s: Bytes): (n: nat)
    ensures n <= 4 && n <= |s|
    ensures n > 0 ==> !Continues(s[0])
  {
    if s == [] then 0
    else
      var b := s[0];
      if b < 0x80 then 1
      else if 0xC2 <= b <= 0xDF then
        if |s| >= 2 && Continues(s[1]) then 2 else 0
      else if 0xE0 <= b <= 0xEF then
        if |s| >= 3 && Continues(s[1]) && Continues(s[2])
           && (b == 0xE0 ==> s[1] >= 0xA0) && (b == 0xED ==> s[1] < 0xA0) then 3 else 0
      else if 0xF0 <= b <= 0xF4 then
        if |s| >= 4 && Continues(s[1]) && Continues(s[2]) && Continues(s[3])
           && (b == 0xF0 ==> s[1] >= 0x90) && (b == 0xF4 ==> s[1] < 0x90) then 4 else 0
      else 0
  }

  predicate Utf8(s: Bytes)
    decreases |s|
  {
    s == [] || (CharLength(s) > 0 && Utf8(s[CharLength(s)..]))
  }

  /** `is_char_boundary`. */
  predicate Boundary(t: Bytes, i: nat)
  {
    i == 0 || i == |t| || (i < |t| && !Continues(t[i]))
  }

  predicate OccursAt(t: Bytes, p: Bytes, i: nat)
  {
    i + |p| <= |t| && t[i..i + |p|] == p
  }

  lemma CharLengthOfPrefix(s: Bytes, n: nat)
    requires n <= |s| && CharLength(s[..n]) > 0
    ensures CharLength(s) == CharLength(s[..n])
  {
  }

  lemma InsideCharacter(t: Bytes, i: nat)
    requires i <= |t| && CharLength(t) > 0
    ensures 0 < i < CharLength(t) ==> Continues(t[i])
    ensures i >= CharLength(t) ==> CharLength(t[..i]) == CharLength(t)
  {
  }

  /** A boundary is where well-formed text may be cut. */
  lemma {:induction false} CutAtBoundary(t: Bytes, i: nat)
    requires Utf8(t) && i <= |t| && Boundary(t, i)
    ensures Utf8(t[..i]) && Utf8(t[i..])
    decreases |t|
  {
    hide CharLength;
    var n := CharLength(t);
    if i == 0 {
      assert t[i..] == t;
    } else if i == |t| {
      assert t[..i] == t;
    } else {
      InsideCharacter(t, i);
      assert t[n..][i - n..] == t[i..] && t[n..][..i - n] == t[..i][n..];
      CutAtBoundary(t[n..], i - n);
    }
  }

  /** From any position the next boundary is at most three bytes away. */
  lemma {:induction false} NearBoundary(t: Bytes, i: nat)
    requires Utf8(t) && i <= |t|
    ensures exists j :: i <= j <= i + 3 && j <= |t| && Boundary(t, j)
    decreases |t|
  {
    if i == 0 || i == |t| {
      assert Boundary(t, i);
    } else {
      var n := CharLength(t);
      var rest := t[n..];
      if i >= n {
        NearBoundary(rest, i - n);
        var j :| i - n <= j <= i - n + 3 && j <= |rest| && Boundary(rest, j);
        assert Boundary(t, n + j);
      } else {
        assert Boundary(t, n);
      }
    }
  }

  /** Where well-formed text holds a well-formed pattern, the pattern ends at a boundary. */
  lemma OccurrenceEndsAtBoundary(t: Bytes, p: Bytes, i: nat)
    requires Utf8(t) && Utf8(p) && OccursAt(t, p, i) && p != []
    ensures Boundary(t, i + |p|)
  {
    assert t[i] == p[0];
    CutAtBoundary(t, i);
    var rest := t[i..];
    assert rest[..|p|] == p;
    PrefixEndsAtBoundary(rest, p);
    if i + |p| < |t| {
      assert rest[|p|] == t[i + |p|];
    }
  }

  lemma {:induction false} PrefixEndsAtBoundary(t: Bytes, p: Bytes)
    requires Utf8(t) && Utf8(p) && p <= t && p != []
    ensures Boundary(t, |p|)
    decreases |p|
  {
    assert t[..|p|] == p;
    CharLengthOfPrefix(t, |p|);
    var n := CharLength(p);
    if n < |p| {
      PrefixEndsAtBoundary(t[n..], p[n..]);
    }
  }

  // ---------- trimming ----------

  // The encodings of the characters that `trim` removes, by length.

  predicate Space1(a: Byte) { 9 <= a <= 13 || a == 0x20 }

  predicate Space2(a: Byte, b: Byte) { a == 0xC2 && (b == 0x85 || b == 0xA0) }

  predicate Space3(a: Byte, b: Byte, c: Byte)
  {
    || (a == 0xE1 && b == 0x9A && c == 0x80)
    || (a == 0xE2 && b == 0x80 && (0x80 <= c <= 0x8A || c == 0xA8 || c == 0xA9 || c == 0xAF))
    || (a == 0xE2 && b == 0x81 && c == 0x9F)
    || (a == 0xE3 && b == 0x80 && c == 0x80)
  }

  /** The length of the white-space character the bytes start with; 0 when there is none. */
  function LeadingSpace(s: Bytes): (n: nat)
    ensures n <= |s|
  {
    if |s| >= 1 && Space1(s[0]) then 1
    else if |s| >= 2 && Space2(s[0], s[1]) then 2
    else if |s| >= 3 && Space3(s[0], s[1], s[2]) then 3
    else 0
  }

  /** The same for the end of the bytes. */
  function TrailingSpace(s: Bytes): (n: nat)
    ensures n <= |s|
  {
    var n := |s|;
    if n >= 1 && Space1(s[n - 1]) then 1
    else if n >= 2 && Space2(s[n - 2], s[n - 1]) then 2
    else if n >= 3 && Space3(s[n - 3], s[n - 2], s[n - 1]) then 3
    else 0
  }

  function TrimStart(s: Bytes): (r: Bytes)
    ensures |r| <= |s| && LeadingSpace(r) == 0
    decreases |s|
  {
    if LeadingSpace(s) > 0 then TrimStart(s[LeadingSpace(s)..]) else s
  }

  function TrimEnd(s: Bytes): (r: Bytes)
    ensures |r| <= |s| && TrailingSpace(r) == 0
    decreases |s|
  {
    if TrailingSpace(s) > 0 then TrimEnd(s[..|s| - TrailingSpace(s)]) else s
  }

  function Trim(s: Bytes): Bytes { TrimEnd(TrimStart(s)) }

  lemma SpaceIsCharacter(s: Bytes)
    requires LeadingSpace(s) > 0
    ensures CharLength(s) == LeadingSpace(s)
  {
  }

  lemma EndSpaceIsCharacter(s: Bytes)
    requires TrailingSpace(s) > 0
    ensures !Continues(s[|s| - TrailingSpace(s)])
    ensures forall i :: |s| - TrailingSpace(s) < i < |s| ==> Continues(s[i])
  {
  }

  lemma {:induction false} TrimStartIsSuffix(s: Bytes)
    ensures TrimStart(s) == s[|s| - |TrimStart(s)|..]
    ensures Utf8(s) ==> Utf8(TrimStart(s))
    decreases |s|
  {
    hide LeadingSpace, CharLength;
    var n := LeadingSpace(s);
    if n > 0 {
      SpaceIsCharacter(s);
      TrimStartIsSuffix(s[n..]);
    }
  }

  lemma {:induction false} TrimEndIsPrefix(s: Bytes)
    ensures TrimEnd(s) == s[..|TrimEnd(s)|]
    ensures Utf8(s) ==> Utf8(TrimEnd(s))
    decreases |s|
  {
    hide TrailingSpace, CharLength;
    var n := TrailingSpace(s);
    if n > 0 {
      EndSpaceIsCharacter(s);
      if Utf8(s) { CutAtBoundary(s, |s| - n); }
      TrimEndIsPrefix(s[..|s| - n]);
      assert s[..|s| - n][..|TrimEnd(s)|] == s[..|TrimEnd(s)|];
    }
  }

  lemma TrimKeepsUtf8(s: Bytes)
    requires Utf8(s)
    ensures Utf8(Trim(s))
  {
    hide Utf8, TrimStart, TrimEnd;
    TrimStartIsSuffix(s);
    TrimEndIsPrefix(TrimStart(s));
  }

  lemma TrimIsSlice(s: Bytes)
    ensures var lead := |s| - |TrimStart(s)|;
            lead + |Trim(s)| <= |s| && Trim(s) == s[lead..lead + |Trim(s)|]
  {
    hide TrimStart, TrimEnd;
    TrimStartIsSuffix(s);
    TrimEndIsPrefix(TrimStart(s));
  }

  lemma SpaceAtFront(s: Bytes, t: Bytes)
    requires s <= t && LeadingSpace(s) > 0
    ensures LeadingSpace(t) > 0
  {
  }

  lemma TrimTwice(s: Bytes)
    ensures Trim(Trim(s)) == Trim(s)
  {
    hide LeadingSpace, TrailingSpace;
    var a := TrimStart(s);
    TrimEndIsPrefix(a);
    if LeadingSpace(TrimEnd(a)) > 0 { SpaceAtFront(TrimEnd(a), a); }
  }

  lemma {:induction false} AllSpace(s: Bytes)
    requires s != [] && TrimEnd(s) == []
    ensures LeadingSpace(s) > 0
    decreases |s|
  {
    var n := TrailingSpace(s);
    if n < |s| {
      AllSpace(s[..|s| - n]);
      SpaceAtFront(s[..|s| - n], s);
    }
  }

  /** Text that starts with no white space is not blank. */
  lemma StartsBare(s: Bytes)
    requires s != [] && LeadingSpace(s) == 0
    ensures Trim(s) != []
  {
    if TrimEnd(s) == [] { AllSpace(s); }
  }

  lemma SpaceWithin(a: Bytes, b: Bytes)
    requires Utf8(a) && a != [] && LeadingSpace(a + b) > 0
    ensures LeadingSpace(a) > 0
  {
    hide CharLength;
    var t := a + b;
    assert t[..|a|] == a;
    CharLengthOfPrefix(t, |a|);
    SpaceIsCharacter(t);
    assert forall i :: 0 <= i < LeadingSpace(t) ==> t[i] == a[i];
  }

  lemma BarePrefix(a: Bytes, b: Bytes)
    requires Utf8(a) && a != [] && LeadingSpace(a) == 0
    ensures LeadingSpace(a + b) == 0
  {
    if LeadingSpace(a + b) > 0 { SpaceWithin(a, b); }
  }

  // ---------- the bytes of a text ----------

  function EncodeChar(c: char): Bytes
  {
    var n := c as int;
    if n < 0x80 then [n]
    else if n < 0x800 then [0xC0 + n / 64, 0x80 + n % 64]
    else if n < 0x1_0000 then [0xE0 + n / 4096, 0x80 + n / 64 % 64, 0x80 + n % 64]
    else [0xF0 + n / 262144, 0x80 + n / 4096 % 64, 0x80 + n / 64 % 64, 0x80 + n % 64]
  }

  function Encode(s: string): Bytes
  {
    if s == [] then [] else Encode(s[..|s| - 1]) + EncodeChar(s[|s| - 1])
  }

  lemma CharacterIsUtf8(c: char)
    ensures Utf8(EncodeChar(c)) && |EncodeChar(c)| == Stream.Utf8Size(c)
  {
    var b := EncodeChar(c);
    assert CharLength(b) == |b|;
    assert b[|b|..] == [];
  }

  /** The bytes of any text are well formed, and as many as the reader counts. */
  lemma {:induction false} EncodedIsUtf8(s: string)
    ensures Utf8(Encode(s)) && |Encode(s)| == Stream.Bytes(s)
  {
    hide EncodeChar, CharLength;
    if s == [] {
    } else {
      EncodedIsUtf8(s[..|s| - 1]);
      CharacterIsUtf8(s[|s| - 1]);
      Utf8Concat(Encode(s[..|s| - 1]), EncodeChar(s[|s| - 1]));
    }
  }

  /** On bytes and on characters `trim` removes the same white space. */
  lemma SameSpace(c: char)
    ensures LeadingSpace(EncodeChar(c)) == TrailingSpace(EncodeChar(c)) == if Text.IsWhitespace(c) then |EncodeChar(c)| else 0
  {
    hide Space3;
    var n, b := c as int, EncodeChar(c);
    if n < 0x80 {
      assert b == [n];
    } else if n < 0x800 {
      assert b[0] == 0xC2 <==> n / 64 == 2;
    } else if n < 0x1_0000 {
      LongSpaces(n);
    } else {
      LongestSpaces(b[0], b[1], b[2], b[3]);
    }
  }

  lemma LongSpaces(n: nat)
    requires 0x800 <= n < 0x1_0000
    ensures Space3(0xE0 + n / 4096, 0x80 + n / 64 % 64, 0x80 + n % 64) <==>
      n == 0x1680 || 0x2000 <= n <= 0x200A || n == 0x2028 || n == 0x2029 || n == 0x202F || n == 0x205F || n == 0x3000
  {
    var x, y, z := n / 4096, n / 64 % 64, n % 64;
    assert n == x * 4096 + y * 64 + z;
  }

  lemma LongestSpaces(a: Byte, b: Byte, c: Byte, d: Byte)
    requires a >= 0xF0 && 0x80 <= b < 0xC0
    ensures !Space3(a, b, c) && !Space3(b, c, d)
  {
  }

  // ---------- what counts as a loop ----------

  function FirstNewline(t: Bytes): (i: nat)
    ensures i <= |t|
    ensures i < |t| ==> t[i] == 10
    ensures forall j :: 0 <= j < i ==> t[j] != 10
  {
    if t == [] || t[0] == 10 then 0 else 1 + FirstNewline(t[1..])
  }

  function NonBlank(line: Bytes): seq<Bytes>
  {
    if Trim(line) == [] then [] else [Trim(line)]
  }

  /** The trimmed lines of a text that are not blank. */
  function NonBlankLines(t: Bytes): seq<Bytes>
    decreases |t|
  {
    var i := FirstNewline(t);
    NonBlank(t[..i]) + if i == |t| then [] else NonBlankLines(t[i + 1..])
  }

  function Join(lines: seq<Bytes>): Bytes
  {
    if lines == [] then [] else if |lines| == 1 then lines[0] else lines[0] + [10] + Join(lines[1..])
  }

  /** The last four lines are equal. */
  predicate LineLoop(lines: seq<Bytes>)
  {
    var n := |lines|;
    n >= 4 && lines[n - 1] == lines[n - 2] && lines[n - 2] == lines[n - 3] && lines[n - 3] == lines[n - 4]
  }

  /** The last `3k` lines are three equal blocks. */
  predicate Cycle(lines: seq<Bytes>, k: nat)
  {
    var n := |lines|;
    n >= 3 * k && lines[n - 3 * k..n - 2 * k] == lines[n - 2 * k..n - k] == lines[n - k..]
  }

  function Chunk(t: Bytes, offset: nat, w: nat): Bytes
    requires offset + w <= |t|
  {
    t[|t| - offset - w..|t| - offset]
  }

  predicate InReach(t: Bytes, offset: nat, w: nat)
  {
    offset <= MAX_OFFSET && offset + MIN_TEXT <= |t| && MIN_WINDOW <= w <= MAX_WINDOW
  }

  /** Three equal adjacent chunks of whole characters, not blank, `offset` bytes before the end. */
  predicate Copies(t: Bytes, offset: nat, w: nat)
  {
    offset + 3 * w <= |t|
    && Chunk(t, offset, w) == Chunk(t, offset + w, w) == Chunk(t, offset + 2 * w, w)
    && Utf8(Chunk(t, offset, w)) && Trim(Chunk(t, offset, w)) != []
  }

  predicate Before(o: nat, w: nat, o': nat, w': nat) { o < o' || (o == o' && w < w') }

  ghost predicate NoCopiesBefore(t: Bytes, offset: nat, w: nat)
  {
    forall o: nat, v: nat :: InReach(t, o, v) && Before(o, v, offset, w) ==> !Copies(t, o, v)
  }

  /** `p` is the chunk copied at the least offset and, there, of the least width. */
  ghost predicate FirstCopied(t: Bytes, offset: nat, w: nat, p: Bytes)
  {
    InReach(t, offset, w) && Copies(t, offset, w) && p == Trim(Chunk(t, offset, w)) && NoCopiesBefore(t, offset, w)
  }

  ghost predicate FirstCycle(lines: seq<Bytes>, k: nat)
  {
    2 <= k <= 8 && 3 * k <= |lines| && Cycle(lines, k) && forall j :: 2 <= j < k ==> !Cycle(lines, j)
  }

  ghost predicate HasCycle(lines: seq<Bytes>) { exists k :: 2 <= k <= 8 && Cycle(lines, k) }

  ghost predicate HasCopies(t: Bytes) { exists o: nat, w: nat :: InReach(t, o, w) && Copies(t, o, w) }

  ghost predicate Repetitive(t: Bytes)
  {
    |t| >= MIN_TEXT && (LineLoop(NonBlankLines(t)) || HasCycle(NonBlankLines(t)) || HasCopies(t))
  }

  /** `p` is the pattern of a repetitive text: the repeated line, or the shortest cycle of lines, or
      the nearest copied chunk. */
  ghost predicate Finds(t: Bytes, p: Bytes)
  {
    var lines := NonBlankLines(t);
    Repetitive(t)
    && if LineLoop(lines) then p == lines[|lines| - 1]
       else if HasCycle(lines) then exists k :: FirstCycle(lines, k) && p == Join(lines[|lines| - k..])
       else exists o: nat, w: nat :: FirstCopied(t, o, w, p)
  }

  /** The text ends in three copies of a chunk and at most twenty bytes after them. */
  ghost predicate Thrice(t: Bytes, before: Bytes, chunk: Bytes, after: Bytes)
  {
    t == before + chunk + chunk + chunk + after && 10 <= |chunk| <= 120 && |after| <= 20 && |after| + 30 <= |t|
    && Utf8(chunk) && Trim(chunk) != []
  }

  lemma ThriceCopies(t: Bytes, before: Bytes, chunk: Bytes, after: Bytes)
    requires Thrice(t, before, chunk, after)
    ensures HasCopies(t)
  {
    hide Utf8, Trim;
    var o, w := |after|, |chunk|;
    assert Chunk(t, o, w) == chunk;
    assert Chunk(t, o + w, w) == chunk;
    assert Chunk(t, o + 2 * w, w) == chunk;
    assert InReach(t, o, w) && Copies(t, o, w);
  }

  lemma CopiesThrice(t: Bytes, o: nat, w: nat) returns (before: Bytes, chunk: Bytes, after: Bytes)
    requires InReach(t, o, w) && Copies(t, o, w)
    ensures Thrice(t, before, chunk, after)
  {
    hide Utf8, Trim;
    var n := |t| - o;
    before, chunk, after := t[..n - 3 * w], Chunk(t, o, w), t[n..];
    assert t == t[..n - 3 * w] + t[n - 3 * w..n - 2 * w] + t[n - 2 * w..n - w] + t[n - w..n] + t[n..];
  }

  /** The chunk search decides exactly this. */
  lemma CopiesRead(t: Bytes)
    ensures HasCopies(t) <==> exists before, chunk, after :: Thrice(t, before, chunk, after)
  {
    hide Utf8, Trim, InReach, Copies, Chunk;
    if HasCopies(t) {
      var o: nat, w: nat :| InReach(t, o, w) && Copies(t, o, w);
      var before, chunk, after := CopiesThrice(t, o, w);
    }
    if exists before, chunk, after :: Thrice(t, before, chunk, after) {
      var before, chunk, after :| Thrice(t, before, chunk, after);
      ThriceCopies(t, before, chunk, after);
    }
  }

  // ---------- the search ----------

  function NextBoundary(t: Bytes, i: nat): (j: nat)
    requires i <= |t|
    ensures i <= j <= |t| && Boundary(t, j)
    decreases |t| - i
  {
    if Boundary(t, i) then i else NextBoundary(t, i + 1)
  }

  lemma {:induction false} NextBoundaryIsNear(t: Bytes, i: nat, j: nat)
    requires i <= j <= |t| && Boundary(t, j)
    ensures NextBoundary(t, i) <= j
    decreases j - i
  {
    if !Boundary(t, i) { NextBoundaryIsNear(t, i + 1, j); }
  }

  method AlignUp(t: Bytes, from: nat) returns (i: nat)
    requires from <= |t|
    ensures i == NextBoundary(t, from)
    ensures Utf8(t) ==> i <= from + 3
  {
    i := from;
    while !Boundary(t, i)
      invariant from <= i <= |t|
      invariant NextBoundary(t, i) == NextBoundary(t, from)
      decreases |t| - i
    {
      i := i + 1;
    }
    if Utf8(t) {
      NearBoundary(t, from);
      ghost var j :| from <= j <= from + 3 && j <= |t| && Boundary(t, j);
      NextBoundaryIsNear(t, from, j);
    }
  }

  method FindCycle(lines: seq<Bytes>) returns (r: Option<Bytes>)
    ensures r.None? ==> !HasCycle(lines)
    ensures r.Some? ==> exists k :: FirstCycle(lines, k) && r.value == Join(lines[|lines| - k..])
  {
    hide Join;
    var n := |lines|;
    for k := 2 to 9
      invariant forall j :: 2 <= j < k ==> !Cycle(lines, j)
    {
      if n >= 3 * k {
        if lines[n - 3 * k..n - 2 * k] == lines[n - 2 * k..n - k] && lines[n - 2 * k..n - k] == lines[n - k..] {
          assert FirstCycle(lines, k);
          return Some(Join(lines[n - k..]));
        }
      }
    }
    return None;
  }

  method CopiedAt(tail: Bytes, offset: nat, w: nat) returns (p: Option<Bytes>)
    requires offset <= |tail|
    ensures p.Some? <==> Copies(tail, offset, w)
    ensures p.Some? ==> p.value == Trim(Chunk(tail, offset, w))
  {
    hide Utf8, Trim;
    var end := |tail| - offset;
    if end >= 3 * w {
      var chunk3, chunk2, chunk1 := tail[end - w..end], tail[end - 2 * w..end - w], tail[end - 3 * w..end - 2 * w];
      if chunk1 == chunk2 && chunk2 == chunk3 {
        if Utf8(chunk3) {
          if Trim(chunk3) != [] {
            return Some(Trim(chunk3));
          }
        }
      }
    }
    return None;
  }

  method FindCopies(tail: Bytes) returns (r: Option<Bytes>)
    requires |tail| >= MIN_TEXT
    ensures r.None? ==> !HasCopies(tail)
    ensures r.Some? ==> exists o: nat, w: nat :: FirstCopied(tail, o, w, r.value)
  {
    hide Chunk, Trim, Copies;
    var m := |tail|;
    var maxOffset := if m - MIN_TEXT < MAX_OFFSET then m - MIN_TEXT else MAX_OFFSET;
    for offset := 0 to maxOffset + 1
      invariant NoCopiesBefore(tail, offset, 0)
    {
      for w := MIN_WINDOW to MAX_WINDOW + 1
        invariant NoCopiesBefore(tail, offset, w)
      {
        r := CopiedAt(tail, offset, w);
        if r.Some? {
          assert FirstCopied(tail, offset, w, r.value);
          return;
        }
      }
    }
    return None;
  }

  /** The last 800 bytes hold everything the chunk search can see. */
  lemma TailIsEnough(t: Bytes, start: nat, offset: nat, w: nat)
    requires start <= |t| && (start == 0 || |t| - start >= MAX_OFFSET + 3 * MAX_WINDOW)
    ensures InReach(t[start..], offset, w) <==> InReach(t, offset, w)
    ensures InReach(t, offset, w) ==> (Copies(t[start..], offset, w) <==> Copies(t, offset, w))
    ensures InReach(t, offset, w) && Copies(t, offset, w) ==> Chunk(t[start..], offset, w) == Chunk(t, offset, w)
  {
    hide Utf8, Trim;
    if start > 0 && InReach(t, offset, w) {
      SameChunk(t, start, offset, w);
      SameChunk(t, start, offset + w, w);
      SameChunk(t, start, offset + 2 * w, w);
    } else if start == 0 {
      assert t[start..] == t;
    }
  }

  lemma SameChunk(t: Bytes, start: nat, offset: nat, w: nat)
    requires start + offset + w <= |t|
    ensures Chunk(t[start..], offset, w) == Chunk(t, offset, w)
  {
  }

  lemma {:induction false} Utf8Concat(a: Bytes, b: Bytes)
    requires Utf8(a) && Utf8(b)
    ensures Utf8(a + b)
    decreases |a|
  {
    if a == [] {
      assert a + b == b;
    } else {
      var n := CharLength(a);
      assert (a + b)[..|a|] == a;
      CharLengthOfPrefix(a + b, |a|);
      assert (a + b)[n..] == a[n..] + b;
      Utf8Concat(a[n..], b);
    }
  }

  lemma TakeLine(t: Bytes)
    requires FirstNewline(t) < |t|
    ensures NonBlankLines(t) == NonBlank(t[..FirstNewline(t)]) + NonBlankLines(t[FirstNewline(t) + 1..])
  {
  }

  lemma LastLine(t: Bytes)
    requires FirstNewline(t) == |t|
    ensures NonBlankLines(t) == NonBlank(t[..|t|])
  {
  }

  predicate IsLine(l: Bytes) { Utf8(l) && l != [] && Trim(l) == l }

  predicate IsPattern(p: Bytes) { Utf8(p) && Trim(p) != [] }

  lemma {:induction false} LinesAreTrimmed(t: Bytes)
    requires Utf8(t)
    ensures forall i :: 0 <= i < |NonBlankLines(t)| ==> IsLine(NonBlankLines(t)[i])
    decreases |t|
  {
    hide Utf8, Trim, NonBlankLines, FirstNewline, Boundary;
    var i := FirstNewline(t);
    NewlineCuts(t, i);
    TrimKeepsUtf8(t[..i]);
    TrimTwice(t[..i]);
    if i < |t| {
      TakeLine(t);
      LinesAreTrimmed(t[i + 1..]);
    } else {
      LastLine(t);
    }
  }

  lemma NewlineCuts(t: Bytes, i: nat)
    requires Utf8(t) && i <= |t| && (i < |t| ==> t[i] == 10)
    ensures Utf8(t[..i]) && (i < |t| ==> Utf8(t[i + 1..]))
  {
    CutAtBoundary(t, i);
    if i < |t| {
      assert t[i..][1..] == t[i + 1..];
    }
  }

  lemma {:induction false} JoinIsUtf8(lines: seq<Bytes>)
    requires forall i :: 0 <= i < |lines| ==> IsLine(lines[i])
    ensures Utf8(Join(lines))
  {
    hide Utf8, Trim;
    if lines == [] {
      EmptyIsUtf8();
    } else if |lines| > 1 {
      JoinIsUtf8(lines[1..]);
      EmptyIsUtf8();
      Utf8Concat(lines[0], [10]);
      Utf8Concat(lines[0] + [10], Join(lines[1..]));
    }
  }

  lemma EmptyIsUtf8()
    ensures Utf8([]) && Utf8([10])
  {
  }

  lemma LineStartsBare(l: Bytes)
    requires IsLine(l)
    ensures LeadingSpace(l) == 0
  {
    hide Utf8;
    TrimStartIsSuffix(l);
    assert |TrimStart(l)| == |l|;
  }

  lemma JoinIsPattern(lines: seq<Bytes>)
    requires lines != [] && forall i :: 0 <= i < |lines| ==> IsLine(lines[i])
    ensures IsPattern(Join(lines))
  {
    hide Utf8, Trim, LeadingSpace, IsLine;
    JoinIsUtf8(lines);
    assert IsLine(lines[0]);
    LineStartsBare(lines[0]);
    assert Utf8(lines[0]) && lines[0] != [] by { LineIsText(lines[0]); }
    if |lines| == 1 {
      StartsBare(lines[0]);
    } else {
      var rest := [10] + Join(lines[1..]);
      assert Join(lines) == lines[0] + rest;
      BarePrefix(lines[0], rest);
      StartsBare(lines[0] + rest);
    }
  }

  lemma LineIsText(l: Bytes)
    requires IsLine(l)
    ensures Utf8(l) && l != [] && IsPattern(l)
  {
    hide Utf8, Trim;
  }

  lemma CopiedIsPattern(t: Bytes, offset: nat, w: nat, p: Bytes)
    requires FirstCopied(t, offset, w, p)
    ensures IsPattern(p)
  {
    hide Utf8, Trim;
    TrimIsSlice(Chunk(t, offset, w));
    TrimKeepsUtf8(Chunk(t, offset, w));
    TrimTwice(Chunk(t, offset, w));
  }

  method SearchTail(text: Bytes) returns (r: Option<Bytes>)
    requires Utf8(text) && |text| >= MIN_TEXT
    ensures r.None? ==> !HasCopies(text)
    ensures r.Some? ==> exists o: nat, w: nat :: FirstCopied(text, o, w, r.value)
  {
    hide Utf8, Trim, Copies, InReach;
    var tailLength := if |text| < TAIL then |text| else TAIL;
    var start := AlignUp(text, |text| - tailLength);
    assert Boundary(text, 0);
    r := FindCopies(text[start..]);
    forall o: nat, w: nat
      ensures InReach(text[start..], o, w) <==> InReach(text, o, w)
      ensures InReach(text, o, w) ==> (Copies(text[start..], o, w) <==> Copies(text, o, w))
    {
      TailIsEnough(text, start, o, w);
    }
    if r.Some? {
      ghost var o: nat, w: nat :| FirstCopied(text[start..], o, w, r.value);
      TailIsEnough(text, start, o, w);
      assert FirstCopied(text, o, w, r.value);
    }
  }

  /** The detector finds a pattern exactly in the repetitive texts, lines before chunks, the
      shortest cycle first and the nearest chunk first. */
  method DetectRepetition(text: Bytes) returns (r: Option<Bytes>)
    requires Utf8(text)
    ensures r.Some? <==> Repetitive(text)
    ensures r.Some? ==> |text| >= 30 && Finds(text, r.value) && IsPattern(r.value)
  {
    hide Utf8, NonBlankLines, Join, FirstCopied, HasCopies, IsPattern, IsLine;
    if |text| < MIN_TEXT {
      return None;
    }
    var lines := NonBlankLines(text);
    LinesAreTrimmed(text);
    if LineLoop(lines) {
      LineIsText(lines[|lines| - 1]);
      return Some(lines[|lines| - 1]);
    }
    r := FindCycle(lines);
    if r.Some? {
      ghost var k :| FirstCycle(lines, k) && r.value == Join(lines[|lines| - k..]);
      assert HasCycle(lines);
      JoinIsPattern(lines[|lines| - k..]);
      return;
    }
    r := SearchTail(text);
    if r.Some? {
      ghost var o: nat, w: nat :| FirstCopied(text, o, w, r.value);
      CopiedIsPattern(text, o, w, r.value);
      CopiedIsCopies(text, o, w, r.value);
    }
  }

  lemma CopiedIsCopies(t: Bytes, offset: nat, w: nat, p: Bytes)
    requires FirstCopied(t, offset, w, p)
    ensures HasCopies(t) && InReach(t, offset, w) && Copies(t, offset, w) && p == Trim(Chunk(t, offset, w))
  {
  }

  // ---------- repeated lines are found ----------

  /** The second text on new lines below the first. */
  function Below(a: Bytes, b: Bytes): Bytes { a + [10] + b }

  lemma NewlineAfter(a: Bytes, b: Bytes)
    ensures FirstNewline(Below(a, b)) == FirstNewline(a)
  {
    var t, i := Below(a, b), FirstNewline(a);
    assert t[i] == 10;
    assert forall j :: 0 <= j < i ==> t[j] == a[j];
  }

  lemma {:induction false} LinesBelow(a: Bytes, b: Bytes)
    ensures NonBlankLines(Below(a, b)) == NonBlankLines(a) + NonBlankLines(b)
    decreases |a|
  {
    hide FirstNewline, NonBlank, NonBlankLines;
    var t, i := Below(a, b), FirstNewline(a);
    NewlineAfter(a, b);
    TakeLine(t);
    assert t[..i] == a[..i];
    if i == |a| {
      LastLine(a);
      assert t[i + 1..] == b;
    } else {
      TakeLine(a);
      assert t[i + 1..] == Below(a[i + 1..], b);
      LinesBelow(a[i + 1..], b);
    }
  }

  /** Whatever comes first, two to eight lines written three times over are found, and so is one
      line written four times, blank lines and indentation aside. */
  lemma RepeatedLinesAreFound(before: Bytes, block: Bytes)
    requires 1 <= |NonBlankLines(block)| <= 8
    ensures
      var thrice := Below(Below(Below(before, block), block), block);
      && (|NonBlankLines(block)| > 1 && |thrice| >= 30 ==> Repetitive(thrice))
      && (|thrice| >= 30 ==> Repetitive(Below(thrice, block)))
  {
    hide NonBlankLines, Below, Cycle, HasCopies;
    var once := Below(before, block);
    var twice := Below(once, block);
    var thrice := Below(twice, block);
    LinesBelow(before, block);
    LinesBelow(once, block);
    LinesBelow(twice, block);
    LinesBelow(thrice, block);
    BelowIsLonger(thrice, block);
    var p, x := NonBlankLines(before), NonBlankLines(block);
    ThreeBlocks(p, x);
    ThreeBlocks(p + x, x);
    if |x| == 1 { FourLines(p, x); }
  }

  lemma BelowIsLonger(a: Bytes, b: Bytes)
    ensures |Below(a, b)| > |a|
  {
  }

  lemma FourLines(p: seq<Bytes>, x: seq<Bytes>)
    requires |x| == 1
    ensures LineLoop(p + x + x + x + x)
  {
  }

  lemma ThreeBlocks(p: seq<Bytes>, x: seq<Bytes>)
    ensures Cycle(p + x + x + x, |x|)
  {
    var n, k := |p| + 3 * |x|, |x|;
    var all := p + x + x + x;
    assert all[n - 3 * k..n - 2 * k] == x;
    assert all[n - 2 * k..n - k] == x;
    assert all[n - k..] == x;
  }
}
