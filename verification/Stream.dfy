/** Reading a streamed completion: line framing over arbitrary chunks, and what each line adds to
    the accumulated response. */
module Stream {
  import opened Text
  import opened Protocol
  import opened ToolCalls

  // ---------- lines ----------

  /** Position of the first newline, or the length when there is none. */
  function FindNewline(s: string): (i: nat)
    ensures i <= |s|
    ensures i < |s| ==> s[i] == '\n'
    ensures forall j :: 0 <= j < i ==> s[j] != '\n'
  {
    if s == [] || s[0] == '\n' then 0 else 1 + FindNewline(s[1..])
  }

  /** The complete lines of a text, without their newlines... */
  function Lines(s: string): seq<string>
    decreases |s|
  {
    var i := FindNewline(s);
    if i == |s| then [] else [s[..i]] + Lines(s[i + 1..])
  }

  /** ... and what follows the last newline. */
  function Rest(s: string): string
    decreases |s|
  {
    var i := FindNewline(s);
    if i == |s| then s else Rest(s[i + 1..])
  }

  function Unlines(lines: seq<string>): string
  {
    if lines == [] then "" else lines[0] + "\n" + Unlines(lines[1..])
  }

  lemma Reassociate(a: string, b: string, c: string)
    ensures (a + b) + c == a + (b + c)
  {
  }

  /** The lines and the remainder are the text... */
  lemma {:induction false} LinesExact(s: string)
    ensures s == Unlines(Lines(s)) + Rest(s)
    decreases |s|
  {
    hide FindNewline, Lines, Rest;
    var i := FindNewline(s);
    if i == |s| {
      NoLine(s);
    } else {
      var head, t := s[..i] + "\n", s[i + 1..];
      TakeLine(s);
      LinesExact(t);
      assert ([s[..i]] + Lines(t))[1..] == Lines(t);
      Reassociate(head, Unlines(Lines(t)), Rest(t));
      assert s == head + t;
    }
  }

  /** ... cut exactly at its newlines. */
  lemma {:induction false} LinesHaveNoNewline(s: string)
    ensures forall k :: 0 <= k < |Lines(s)| ==> FindNewline(Lines(s)[k]) == |Lines(s)[k]|
    ensures FindNewline(Rest(s)) == |Rest(s)|
    decreases |s|
  {
    hide FindNewline;
    var i := FindNewline(s);
    if i < |s| {
      LinesHaveNoNewline(s[i + 1..]);
      NoNewline(s[..i]);
    }
  }

  lemma NoNewline(s: string)
    requires forall j :: 0 <= j < |s| ==> s[j] != '\n'
    ensures FindNewline(s) == |s|
  {
  }

  lemma NewlineInFirst(a: string, b: string)
    requires FindNewline(a) < |a|
    ensures FindNewline(a + b) == FindNewline(a)
  {
    var i := FindNewline(a);
    assert (a + b)[i] == '\n';
    assert forall j :: 0 <= j < i ==> (a + b)[j] == a[j];
  }

  lemma TakeLine(s: string)
    requires FindNewline(s) < |s|
    ensures var i := FindNewline(s); Lines(s) == [s[..i]] + Lines(s[i + 1..]) && Rest(s) == Rest(s[i + 1..])
  {
    hide FindNewline;
  }

  lemma NoLine(s: string)
    requires FindNewline(s) == |s|
    ensures Lines(s) == [] && Rest(s) == s
  {
    hide FindNewline;
  }

  /** Framing is incremental: keeping the remainder and appending the next chunk loses nothing. */
  lemma {:induction false} LinesOfConcat(a: string, b: string)
    ensures Lines(a + b) == Lines(a) + Lines(Rest(a) + b)
    ensures Rest(a + b) == Rest(Rest(a) + b)
    decreases |a|
  {
    hide FindNewline, Lines, Rest;
    var i := FindNewline(a);
    if i < |a| {
      var t := a[i + 1..];
      NewlineInFirst(a, b);
      TakeLine(a);
      TakeLine(a + b);
      LinesOfConcat(t, b);
      assert (a + b)[i + 1..] == t + b && (a + b)[..i] == a[..i];
    } else {
      NoLine(a);
    }
  }

  // ---------- one line ----------

  function TrimStart(s: string): string
  {
    if s != [] && IsWhitespace(s[0]) then TrimStart(s[1..]) else s
  }

  function TrimEnd(s: string): string
  {
    if s != [] && IsWhitespace(s[|s| - 1]) then TrimEnd(s[..|s| - 1]) else s
  }

  function Trim(s: string): string { TrimEnd(TrimStart(s)) }

  function TrimEndCr(s: string): string
  {
    if s != [] && s[|s| - 1] == '\r' then TrimEndCr(s[..|s| - 1]) else s
  }

  const DATA_PREFIX: string := "data: "
  const DONE_MARK: string := "[DONE]"

  datatype Line = Skipped | DoneMark | Data(payload: string)

  function ReadLine(raw: string): Line
  {
    var trimmed := Trim(TrimEndCr(raw));
    if trimmed == "" || trimmed[0] == ':' then Skipped
    else if DATA_PREFIX <= trimmed then
      var data := Trim(trimmed[|DATA_PREFIX|..]);
      if data == DONE_MARK then DoneMark else Data(data)
    else Skipped
  }

  datatype Choice = Choice(
    finish: Option<string>,
    reasoning: Option<string>,
    content: Option<string>,
    toolCalls: seq<Fragment>)

  /** One decoded line: the provider's token counts, as it sent them, and the choices. */
  datatype Chunk = Chunk(usage: Option<string>, choices: seq<Choice>)

  /** What lies outside the loop: the JSON decoder of a line, the repetition detector and what it
      keeps of a repetitive text, and the ids of calls that come without one. */
  datatype Decoder = Decoder(
    decode: string -> Option<Chunk>,
    detect: string -> Option<string>,
    clean: (string, string) -> string,
    generated: (nat, nat) -> string)

  /** `done` ends the stream once the lines already buffered are processed; `closed` ends it at
      this line. */
  datatype Response = Response(
    text: string,
    reasoning: string,
    tools: Assembly,
    finish: Option<string>,
    usage: Option<string>,
    pattern: Option<string>,
    done: bool,
    closed: bool)

  const NOTHING: Response := Response("", "", EMPTY, None, None, None, false, false)

  const REASONING_CAP: nat := 40_000

  const CAP_NOTICE: string := "\n\n[OpenPI Guard: Terminated excessive thinking (budget cap reached)]"

  /** What the reader returns. */
  datatype Accumulated = Accumulated(
    text: string,
    reasoning: string,
    calls: seq<Call>,
    finish: Option<string>,
    usage: Option<string>)

  /** After the loop: repetitive reasoning is cleaned, reasoning at its cap gets a notice, and of the
      loop's own variables only these five are returned. */
  function Result(r: Response, d: Decoder): Accumulated
  {
    var reasoning :=
      if r.pattern.Some? then d.clean(r.reasoning, r.pattern.value)
      else if Bytes(r.reasoning) >= REASONING_CAP then r.reasoning + CAP_NOTICE
      else r.reasoning;
    Accumulated(r.text, reasoning, r.tools.calls, r.finish, r.usage)
  }

  function Utf8Size(c: char): nat
  {
    if c as int < 0x80 then 1 else if c as int < 0x800 then 2 else if c as int < 0x1_0000 then 3 else 4
  }

  function Bytes(s: string): nat
  {
    if s == [] then 0 else Bytes(s[..|s| - 1]) + Utf8Size(s[|s| - 1])
  }

  predicate EndsStream(finish: string)
  {
    finish == "stop" || finish == "length" || finish == "tool_calls" || finish == "function_call"
  }

  function AddReasoning(r: Response, piece: string, d: Decoder): Response
  {
    if piece == "" then r
    else
      var all := r.reasoning + piece;
      var pattern := if Bytes(all) > 60 then d.detect(all) else None;
      if pattern.Some? then r.(reasoning := all, pattern := pattern, done := true, closed := true)
      else if Bytes(all) >= REASONING_CAP then r.(reasoning := all, done := true, closed := true)
      else r.(reasoning := all)
  }

  function AcceptAll(a: Assembly, fs: seq<Fragment>, generated: (nat, nat) -> string): (r: Assembly)
    requires InRange(a)
    ensures InRange(r)
  {
    if fs == [] then a else Accept(AcceptAll(a, fs[..|fs| - 1], generated), fs[|fs| - 1], generated)
  }

  function AddChoice(r: Response, c: Choice, d: Decoder): (r': Response)
    requires InRange(r.tools)
    ensures InRange(r'.tools) && (r.done ==> r'.done)
  {
    var r1 := if c.finish.Some? then r.(finish := c.finish, done := r.done || EndsStream(c.finish.value)) else r;
    var r2 := if c.reasoning.Some? then AddReasoning(r1, c.reasoning.value, d) else r1;
    if r2.closed then r2
    else r2.(text := r2.text + Piece(c.content), tools := AcceptAll(r2.tools, c.toolCalls, d.generated))
  }

  /** The choices of one chunk, until one closes the stream. */
  function AddChoices(r: Response, cs: seq<Choice>, d: Decoder): (r': Response)
    requires InRange(r.tools)
    ensures InRange(r'.tools) && (r.done ==> r'.done)
    decreases |cs|
  {
    if cs == [] || r.closed then r else AddChoices(AddChoice(r, cs[0], d), cs[1..], d)
  }

  function Counted(r: Response, usage: Option<string>): Response
  {
    if usage.Some? then r.(usage := usage) else r
  }

  /** One line of the stream; nothing after the line that closed it. */
  function Feed(r: Response, raw: string, d: Decoder): (r': Response)
    requires InRange(r.tools)
    ensures InRange(r'.tools) && (r.done ==> r'.done) && (r.closed ==> r' == r)
  {
    if r.closed then r
    else
      match ReadLine(raw)
      case Skipped => r
      case DoneMark => r.(done := true, closed := true)
      case Data(payload) =>
        match d.decode(payload)
        case Some(chunk) => AddChoices(Counted(r, chunk.usage), chunk.choices, d)
        case None => r
  }

  function FeedAll(r: Response, lines: seq<string>, d: Decoder): (r': Response)
    requires InRange(r.tools)
    ensures InRange(r'.tools) && (r.done ==> r'.done) && (r.closed ==> r' == r)
    decreases |lines|
  {
    if lines == [] then r else FeedAll(Feed(r, lines[0], d), lines[1..], d)
  }

  lemma {:induction false} FeedAllConcat(r: Response, a: seq<string>, b: seq<string>, d: Decoder)
    requires InRange(r.tools)
    ensures FeedAll(r, a + b, d) == FeedAll(FeedAll(r, a, d), b, d)
    decreases |a|
  {
    hide Feed;
    if a == [] {
      assert a + b == b;
    } else {
      FeedAllConcat(Feed(r, a[0], d), a[1..], b, d);
      assert (a + b)[1..] == a[1..] + b;
    }
  }

  // ---------- the loop over chunks ----------

  datatype Progress = Progress(response: Response, buffer: string)

  function Joined(chunks: seq<string>): string
  {
    if chunks == [] then "" else Joined(chunks[..|chunks| - 1]) + chunks[|chunks| - 1]
  }

  /** After each chunk, until one has ended the stream: every complete line in the buffer is fed. */
  function Read(chunks: seq<string>, d: Decoder): (p: Progress)
    ensures InRange(p.response.tools)
  {
    if chunks == [] then Progress(NOTHING, "")
    else
      var p := Read(chunks[..|chunks| - 1], d);
      if p.response.done then p
      else
        var buffer := p.buffer + chunks[|chunks| - 1];
        Progress(FeedAll(p.response, Lines(buffer), d), Rest(buffer))
  }

  /** The outer loop of the reader. */
  method ReadStream(chunks: seq<string>, d: Decoder) returns (r: Accumulated)
    ensures r == Result(Read(chunks, d).response, d)
  {
    hide Feed, FeedAll, Lines, Rest;
    var response := NOTHING;
    var buffer := "";
    var k := 0;
    while k < |chunks| && !response.done
      invariant 0 <= k <= |chunks| && InRange(response.tools)
      invariant response == Read(chunks[..k], d).response
      invariant !response.done ==> buffer == Read(chunks[..k], d).buffer
      invariant response.closed ==> response.done
    {
      assert chunks[..k + 1][..k] == chunks[..k];
      response, buffer := FeedBuffer(response, buffer + chunks[k], d);
      k := k + 1;
    }
    ReadStopped(chunks, k, d);
    assert chunks[..|chunks|] == chunks;
    var reasoning := response.reasoning;
    if response.pattern.Some? {
      reasoning := d.clean(reasoning, response.pattern.value);
    } else if Bytes(reasoning) >= REASONING_CAP {
      reasoning := reasoning + CAP_NOTICE;
    }
    r := Accumulated(response.text, reasoning, response.tools.calls, response.finish, response.usage);
  }

  /** The inner loop: take complete lines off the buffer until none is left or one closes the
      stream. */
  method FeedBuffer(start: Response, text: string, d: Decoder) returns (response: Response, buffer: string)
    requires InRange(start.tools) && !start.done && !start.closed
    ensures InRange(response.tools) && response == FeedAll(start, Lines(text), d)
    ensures response.closed ==> response.done
    ensures !response.done ==> buffer == Rest(text)
  {
    hide Feed, FindNewline;
    response, buffer := start, text;
    var newline := FindNewline(buffer);
    while newline < |buffer| && !response.closed
      invariant InRange(response.tools) && newline == FindNewline(buffer)
      invariant FeedAll(start, Lines(text), d) == FeedAll(response, Lines(buffer), d)
      invariant Rest(text) == Rest(buffer)
      invariant response.closed ==> response.done
      decreases |buffer|
    {
      ghost var lines := Lines(buffer);
      assert lines[0] == buffer[..newline] && lines[1..] == Lines(buffer[newline + 1..]);
      ClosedIsDone(response, buffer[..newline], d);
      response := Feed(response, buffer[..newline], d);
      buffer := buffer[newline + 1..];
      newline := FindNewline(buffer);
    }
  }

  lemma {:induction false} ChoicesClosedIsDone(r: Response, cs: seq<Choice>, d: Decoder)
    requires InRange(r.tools) && (r.closed ==> r.done)
    ensures AddChoices(r, cs, d).closed ==> AddChoices(r, cs, d).done
    decreases |cs|
  {
    if cs == [] || r.closed {
    } else {
      ChoicesClosedIsDone(AddChoice(r, cs[0], d), cs[1..], d);
    }
  }

  lemma ClosedIsDone(r: Response, line: string, d: Decoder)
    requires InRange(r.tools) && (r.closed ==> r.done)
    ensures Feed(r, line, d).closed ==> Feed(r, line, d).done
  {
    match ReadLine(line)
    case Skipped =>
    case DoneMark =>
    case Data(payload) =>
      if d.decode(payload).Some? { ChoicesClosedIsDone(Counted(r, d.decode(payload).value.usage), d.decode(payload).value.choices, d); }
  }

  lemma {:induction false} ReadStopped(chunks: seq<string>, k: nat, d: Decoder)
    requires k <= |chunks| && (k == |chunks| || Read(chunks[..k], d).response.done)
    ensures Read(chunks, d).response == Read(chunks[..k], d).response
    decreases |chunks| - k
  {
    if k == |chunks| {
      assert chunks[..k] == chunks;
    } else {
      var front := chunks[..|chunks| - 1];
      assert front[..k] == chunks[..k];
      if k == |front| { assert front[..k] == front; }
      ReadStopped(front, k, d);
    }
  }

  // ---------- framing independence ----------

  /** How many lines of the whole stream the reader has fed. */
  function Consumed(chunks: seq<string>, d: Decoder): nat
  {
    if chunks == [] then 0
    else
      var front := chunks[..|chunks| - 1];
      if Read(front, d).response.done then Consumed(front, d)
      else |Lines(Joined(chunks))|
  }

  /** Whatever the chunks, the reader feeds a prefix of the lines of the whole stream; all of
      them when none ends the stream. */
  lemma {:induction false} ReadsPrefix(chunks: seq<string>, d: Decoder)
    ensures Consumed(chunks, d) <= |Lines(Joined(chunks))|
    ensures Read(chunks, d).response == FeedAll(NOTHING, Lines(Joined(chunks))[..Consumed(chunks, d)], d)
    ensures !Read(chunks, d).response.done ==>
      Consumed(chunks, d) == |Lines(Joined(chunks))| && Read(chunks, d).buffer == Rest(Joined(chunks))
  {
    hide Feed;
    if chunks == [] {
    } else {
      var front, last := chunks[..|chunks| - 1], chunks[|chunks| - 1];
      ReadsPrefix(front, d);
      LinesOfConcat(Joined(front), last);
      var lines := Lines(Joined(front));
      if Read(front, d).response.done {
        assert (lines + Lines(Rest(Joined(front)) + last))[..Consumed(front, d)] == lines[..Consumed(front, d)];
      } else {
        FeedAllConcat(NOTHING, lines, Lines(Read(front, d).buffer + last), d);
        assert lines[..|lines|] == lines;
        assert Lines(Joined(chunks))[..|Lines(Joined(chunks))|] == Lines(Joined(chunks));
      }
    }
  }

  lemma DoneOfLongerPrefix(lines: seq<string>, m: nat, n: nat, d: Decoder)
    requires m <= n <= |lines| && FeedAll(NOTHING, lines[..m], d).done
    ensures FeedAll(NOTHING, lines[..n], d).done
  {
    assert lines[..n] == lines[..m] + lines[m..n];
    FeedAllConcat(NOTHING, lines[..m], lines[m..n], d);
  }

  lemma ReaderReaches(chunks: seq<string>, n: nat, d: Decoder)
    requires n <= |Lines(Joined(chunks))|
    requires n == 0 || !FeedAll(NOTHING, Lines(Joined(chunks))[..n - 1], d).done
    ensures n <= Consumed(chunks, d)
  {
    hide Feed, FeedAll, Consumed, Lines, Joined, Rest, Read;
    ReadsPrefix(chunks, d);
    if Consumed(chunks, d) < n { DoneOfLongerPrefix(Lines(Joined(chunks)), Consumed(chunks, d), n - 1, d); }
  }

  /** Cutting the same stream in two ways, both readers feed it up to and including the first
      line that ends it, so what is accumulated by that line agrees; they may differ only in
      lines after it that one of them had already buffered. */
  lemma FramingIndependent(chunks: seq<string>, others: seq<string>, n: nat, d: Decoder)
    requires Joined(chunks) == Joined(others) && n <= |Lines(Joined(chunks))|
    requires n == 0 || !FeedAll(NOTHING, Lines(Joined(chunks))[..n - 1], d).done
    ensures n <= Consumed(chunks, d) && n <= Consumed(others, d)
  {
    hide Feed, FeedAll, Consumed, Lines, Joined;
    ReaderReaches(chunks, n, d);
    ReaderReaches(others, n, d);
  }

  /** When that line is a done mark or a tripped guard, the two responses are equal altogether. */
  lemma SameResponseWhenClosed(chunks: seq<string>, others: seq<string>, n: nat, d: Decoder)
    requires Joined(chunks) == Joined(others) && n <= |Lines(Joined(chunks))|
    requires n == 0 || !FeedAll(NOTHING, Lines(Joined(chunks))[..n - 1], d).done
    requires FeedAll(NOTHING, Lines(Joined(chunks))[..n], d).closed
    ensures Read(chunks, d).response == Read(others, d).response
  {
    hide Feed, Consumed;
    FramingIndependent(chunks, others, n, d);
    ReadsPrefix(chunks, d);
    ReadsPrefix(others, d);
    var lines := Lines(Joined(chunks));
    ClosedStays(lines, n, Consumed(chunks, d), d);
    ClosedStays(lines, n, Consumed(others, d), d);
  }

  lemma ClosedStays(lines: seq<string>, m: nat, n: nat, d: Decoder)
    requires m <= n <= |lines| && FeedAll(NOTHING, lines[..m], d).closed
    ensures FeedAll(NOTHING, lines[..n], d) == FeedAll(NOTHING, lines[..m], d)
  {
    assert lines[..n] == lines[..m] + lines[m..n];
    FeedAllConcat(NOTHING, lines[..m], lines[m..n], d);
  }

  /** The same holds of a stream that no line ends. */
  lemma SameResponseWhenOpen(chunks: seq<string>, others: seq<string>, d: Decoder)
    requires Joined(chunks) == Joined(others)
    requires !FeedAll(NOTHING, Lines(Joined(chunks)), d).done
    ensures Read(chunks, d).response == Read(others, d).response
  {
    hide Feed, FeedAll, Consumed;
    ReadsPrefix(chunks, d);
    ReadsPrefix(others, d);
    var lines := Lines(Joined(chunks));
    assert lines[..|lines|] == lines;
    if Read(chunks, d).response.done { DoneOfLongerPrefix(lines, Consumed(chunks, d), |lines|, d); }
    if Read(others, d).response.done { DoneOfLongerPrefix(lines, Consumed(others, d), |lines|, d); }
  }

  // ---------- streams ended by a finish reason ----------

  lemma {:induction false} LinesOfUnlines(lines: seq<string>, tail: string)
    requires forall k :: 0 <= k < |lines| ==> FindNewline(lines[k]) == |lines[k]|
    requires FindNewline(tail) == |tail|
    ensures Lines(Unlines(lines) + tail) == lines && Rest(Unlines(lines) + tail) == tail
    decreases |lines|
  {
    hide FindNewline, Lines, Rest;
    if lines == [] {
      assert Unlines(lines) + tail == tail;
      NoLine(tail);
    } else {
      var rest := Unlines(lines[1..]) + tail;
      var s := Unlines(lines) + tail;
      assert s == lines[0] + ("\n" + rest);
      NewlineAfter(lines[0], rest);
      TakeLine(s);
      assert s[|lines[0]| + 1..] == rest && s[..|lines[0]|] == lines[0];
      LinesOfUnlines(lines[1..], tail);
    }
  }

  lemma NewlineAfter(line: string, rest: string)
    requires FindNewline(line) == |line|
    ensures var s := line + ("\n" + rest); FindNewline(s) == |line| < |s|
  {
    var s := line + ("\n" + rest);
    assert s[|line|] == '\n';
    assert forall j :: 0 <= j < |line| ==> s[j] == line[j];
  }

  lemma {:induction false} UnlinesSplit(lines: seq<string>, m: nat)
    requires m <= |lines|
    ensures Unlines(lines) == Unlines(lines[..m]) + Unlines(lines[m..])
  {
    if m == 0 {
      assert lines[0..] == lines;
    } else {
      UnlinesSplit(lines[1..], m - 1);
      assert lines[..m][1..] == lines[1..][..m - 1] && lines[1..][m - 1..] == lines[m..];
    }
  }

  /** The stream in two chunks, cut just after its first `m` lines. */
  function CutAfter(s: string, m: nat): (chunks: seq<string>)
    requires m <= |Lines(s)|
  {
    [Unlines(Lines(s)[..m]), Unlines(Lines(s)[m..]) + Rest(s)]
  }

  lemma JoinedTwo(x: string, y: string)
    ensures Joined([x, y]) == x + y
  {
    assert [x, y][..1] == [x] && [x][..0] == [];
    assert Joined([x]) == "" + x == x;
  }

  lemma ReadTwo(x: string, y: string, d: Decoder)
    requires FeedAll(NOTHING, Lines(x), d).done
    ensures Read([x, y], d).response == FeedAll(NOTHING, Lines(x), d)
  {
    hide Feed, FeedAll, Lines, Rest;
    assert [x, y][..1] == [x] && [x][..0] == [];
    assert "" + x == x;
    assert Read([], d) == Progress(NOTHING, "");
    assert Read([x], d) == Progress(FeedAll(NOTHING, Lines(x), d), Rest(x));
  }

  lemma CutAfterReads(s: string, m: nat, d: Decoder)
    requires m <= |Lines(s)| && FeedAll(NOTHING, Lines(s)[..m], d).done
    ensures Joined(CutAfter(s, m)) == s
    ensures Read(CutAfter(s, m), d).response == FeedAll(NOTHING, Lines(s)[..m], d)
  {
    hide Feed, FeedAll, FindNewline, Lines, Rest, Unlines, Joined, Read;
    var x, y := Unlines(Lines(s)[..m]), Unlines(Lines(s)[m..]);
    LinesExact(s);
    LinesHaveNoNewline(s);
    UnlinesSplit(Lines(s), m);
    Reassociate(x, y, Rest(s));
    JoinedTwo(x, y + Rest(s));
    NoNewline("");
    LinesOfUnlines(Lines(s)[..m], "");
    assert x + "" == x;
    ReadTwo(x, y + Rest(s), d);
  }

  /** Line `n` is the first that ends the stream. */
  ghost predicate EndsAt(s: string, n: nat, d: Decoder)
  {
    1 <= n <= |Lines(s)| && FeedAll(NOTHING, Lines(s)[..n], d).done && !FeedAll(NOTHING, Lines(s)[..n - 1], d).done
  }

  /** What the reader returns when it has fed the first `m` lines of the stream. */
  function ResultAt(s: string, m: nat, d: Decoder): Accumulated
    requires m <= |Lines(s)|
  {
    Result(FeedAll(NOTHING, Lines(s)[..m], d), d)
  }

  ghost predicate AllFramingsGive(s: string, r: Accumulated, d: Decoder)
  {
    forall chunks :: Joined(chunks) == s ==> Result(Read(chunks, d).response, d) == r
  }

  ghost predicate NothingAddedAfter(s: string, n: nat, d: Decoder)
    requires n <= |Lines(s)|
  {
    forall m :: n <= m <= |Lines(s)| ==> ResultAt(s, m, d) == ResultAt(s, n, d)
  }

  /** All ways of cutting a stream return one result exactly when no line after the one that ends
      it changes the result: a reader may or may not have buffered those lines. */
  lemma FramingsAgreeIff(s: string, n: nat, d: Decoder)
    requires EndsAt(s, n, d)
    ensures AllFramingsGive(s, ResultAt(s, n, d), d) <==> NothingAddedAfter(s, n, d)
  {
    hide Feed, FeedAll, Lines, Joined, Rest, Read, Consumed, CutAfter, Result;
    var first := ResultAt(s, n, d);
    if AllFramingsGive(s, first, d) {
      forall m | n <= m <= |Lines(s)| ensures ResultAt(s, m, d) == first {
        DoneOfLongerPrefix(Lines(s), n, m, d);
        CutAfterReads(s, m, d);
      }
    } else {
      var chunks :| Joined(chunks) == s && Result(Read(chunks, d).response, d) != first;
      ReadsPrefix(chunks, d);
      ReaderReaches(chunks, n, d);
      assert ResultAt(s, Consumed(chunks, d), d) != first;
    }
  }

  /** A line that carries nothing: blank, a comment, a done mark, one that does not decode, or a
      chunk without counts and choices. */
  predicate Silent(raw: string, d: Decoder)
  {
    match ReadLine(raw)
    case Data(payload) => d.decode(payload).None? || d.decode(payload) == Some(Chunk(None, []))
    case _ => true
  }

  lemma SilentFeed(r: Response, raw: string, d: Decoder)
    requires InRange(r.tools) && Silent(raw, d)
    ensures Result(Feed(r, raw, d), d) == Result(r, d)
  {
    hide ReadLine, Bytes;
  }

  /** The usual end of a stream: when only silent lines follow the one with the finish reason, a done
      mark among them, every way of cutting the stream returns the same. */
  lemma SilentTailAgrees(s: string, n: nat, d: Decoder)
    requires EndsAt(s, n, d) && forall k :: n <= k < |Lines(s)| ==> Silent(Lines(s)[k], d)
    ensures AllFramingsGive(s, ResultAt(s, n, d), d)
  {
    hide *;
    forall m | n <= m <= |Lines(s)| ensures ResultAt(s, m, d) == ResultAt(s, n, d) {
      SilentUpTo(s, n, m, d);
    }
    EndsWithin(s, n, d);
    AddsNothing(s, n, d);
    FramingsAgreeIff(s, n, d);
  }

  lemma EndsWithin(s: string, n: nat, d: Decoder)
    requires EndsAt(s, n, d)
    ensures 1 <= n <= |Lines(s)|
  {
  }

  lemma AddsNothing(s: string, n: nat, d: Decoder)
    requires n <= |Lines(s)| && forall m :: n <= m <= |Lines(s)| ==> ResultAt(s, m, d) == ResultAt(s, n, d)
    ensures NothingAddedAfter(s, n, d)
  {
  }

  lemma FedOneMore(s: string, m: nat, d: Decoder)
    requires m < |Lines(s)|
    ensures FeedAll(NOTHING, Lines(s)[..m + 1], d) == Feed(FeedAll(NOTHING, Lines(s)[..m], d), Lines(s)[m], d)
  {
    hide Feed, Lines;
    var one := [Lines(s)[m]];
    assert Lines(s)[..m + 1] == Lines(s)[..m] + one;
    FeedAllConcat(NOTHING, Lines(s)[..m], one, d);
    assert one[1..] == [];
  }

  lemma {:induction false} SilentUpTo(s: string, n: nat, m: nat, d: Decoder)
    requires n <= m <= |Lines(s)| && forall k :: n <= k < m ==> Silent(Lines(s)[k], d)
    ensures ResultAt(s, m, d) == ResultAt(s, n, d)
  {
    hide Feed, FeedAll, Lines, Silent, Result;
    if m > n {
      SilentUpTo(s, n, m - 1, d);
      FedOneMore(s, m - 1, d);
      SilentFeed(FeedAll(NOTHING, Lines(s)[..m - 1], d), Lines(s)[m - 1], d);
    }
  }

  /** Token counts sent after the line with the finish reason: whether they are returned depends on
      how the stream is cut. */
  lemma LateUsageDepends(s: string, n: nat, usage: string, d: Decoder)
    requires EndsAt(s, n, d) && n < |Lines(s)| && !FeedAll(NOTHING, Lines(s)[..n], d).closed
    requires ReadLine(Lines(s)[n]).Data? && d.decode(ReadLine(Lines(s)[n]).payload) == Some(Chunk(Some(usage), []))
    requires ResultAt(s, n, d).usage != Some(usage)
    ensures ResultAt(s, n + 1, d).usage == Some(usage) && !AllFramingsGive(s, ResultAt(s, n, d), d)
  {
    hide FeedAll, Lines, ReadLine, Joined, Read, AllFramingsGive, Bytes;
    FedOneMore(s, n, d);
    FramingsAgreeIff(s, n, d);
    assert ResultAt(s, n + 1, d) != ResultAt(s, n, d);
  }

  // ---------- the tool calls of a stream ----------

  function ChoiceFragments(cs: seq<Choice>): seq<Fragment>
  {
    if cs == [] then [] else cs[0].toolCalls + ChoiceFragments(cs[1..])
  }

  function LineFragments(raw: string, d: Decoder): seq<Fragment>
  {
    match ReadLine(raw)
    case Data(payload) => (match d.decode(payload) case Some(chunk) => ChoiceFragments(chunk.choices) case None => [])
    case _ => []
  }

  /** Every tool-call fragment that the lines carry. */
  function AllFragments(lines: seq<string>, d: Decoder): seq<Fragment>
  {
    if lines == [] then [] else LineFragments(lines[0], d) + AllFragments(lines[1..], d)
  }

  lemma {:induction false} AcceptAllConcat(a: Assembly, x: seq<Fragment>, y: seq<Fragment>, generated: (nat, nat) -> string)
    requires InRange(a)
    ensures AcceptAll(a, x + y, generated) == AcceptAll(AcceptAll(a, x, generated), y, generated)
    decreases |y|
  {
    hide Accept;
    if y == [] {
      assert x + y == x;
    } else {
      var front := y[..|y| - 1];
      AcceptAllConcat(a, x, front, generated);
      assert (x + y)[..|x + y| - 1] == x + front;
    }
  }

  lemma {:induction false} AcceptAllIsAssembled(fs: seq<Fragment>, generated: (nat, nat) -> string)
    ensures AcceptAll(EMPTY, fs, generated) == Assembled(fs, generated)
  {
    hide Accept;
    if fs == [] {
    } else {
      AcceptAllIsAssembled(fs[..|fs| - 1], generated);
    }
  }

  lemma TakeInTwo(x: seq<Fragment>, y: seq<Fragment>, n: nat)
    requires n <= |y|
    ensures (x + y)[..|x| + n] == x + y[..n]
  {
  }

  /** The choices add their fragments in order, all of them unless one closes the stream. */
  lemma {:induction false} ChoicesTake(r: Response, cs: seq<Choice>, d: Decoder) returns (n: nat)
    requires InRange(r.tools)
    ensures n <= |ChoiceFragments(cs)|
    ensures AddChoices(r, cs, d).tools == AcceptAll(r.tools, ChoiceFragments(cs)[..n], d.generated)
    ensures !AddChoices(r, cs, d).closed ==> n == |ChoiceFragments(cs)|
    decreases |cs|
  {
    hide AcceptAll, AddReasoning;
    n := 0;
    AcceptNone(r.tools, d.generated);
    if cs != [] && !r.closed {
      var next := AddChoice(r, cs[0], d);
      var x, y := cs[0].toolCalls, ChoiceFragments(cs[1..]);
      ReasoningKeepsTools(r, cs[0], d);
      if !next.closed {
        var k := ChoicesTake(next, cs[1..], d);
        n := |x| + k;
        AcceptAllConcat(r.tools, x, y[..k], d.generated);
        TakeInTwo(x, y, k);
      }
    }
  }

  lemma AcceptNone(a: Assembly, generated: (nat, nat) -> string)
    requires InRange(a)
    ensures AcceptAll(a, [], generated) == a
  {
  }

  lemma ReasoningKeepsTools(r: Response, c: Choice, d: Decoder)
    requires InRange(r.tools) && !r.closed
    ensures var next := AddChoice(r, c, d);
      next.tools == if next.closed then r.tools else AcceptAll(r.tools, c.toolCalls, d.generated)
  {
    hide AcceptAll;
  }

  lemma {:induction false} LinesTake(r: Response, lines: seq<string>, d: Decoder) returns (n: nat)
    requires InRange(r.tools)
    ensures n <= |AllFragments(lines, d)|
    ensures FeedAll(r, lines, d).tools == AcceptAll(r.tools, AllFragments(lines, d)[..n], d.generated)
    ensures !FeedAll(r, lines, d).closed ==> n == |AllFragments(lines, d)|
    decreases |lines|
  {
    hide AcceptAll, AddChoices, ReadLine, Feed, LineFragments;
    n := 0;
    AcceptNone(r.tools, d.generated);
    if lines != [] && !r.closed {
      var next := Feed(r, lines[0], d);
      var x, y := LineFragments(lines[0], d), AllFragments(lines[1..], d);
      var i := LineTakes(r, lines[0], d);
      if next.closed {
        n := i;
        assert (x + y)[..i] == x[..i];
      } else {
        var k := LinesTake(next, lines[1..], d);
        n := |x| + k;
        assert x[..i] == x;
        AcceptAllConcat(r.tools, x, y[..k], d.generated);
        TakeInTwo(x, y, k);
      }
    } else if r.closed {
      FeedClosed(r, lines, d);
    }
  }

  lemma FeedClosed(r: Response, lines: seq<string>, d: Decoder)
    requires InRange(r.tools) && r.closed
    ensures FeedAll(r, lines, d) == r
  {
  }

  lemma LineTakes(r: Response, raw: string, d: Decoder) returns (n: nat)
    requires InRange(r.tools) && !r.closed
    ensures n <= |LineFragments(raw, d)|
    ensures Feed(r, raw, d).tools == AcceptAll(r.tools, LineFragments(raw, d)[..n], d.generated)
    ensures !Feed(r, raw, d).closed ==> n == |LineFragments(raw, d)|
  {
    hide AcceptAll, AddChoices, ReadLine;
    n := 0;
    AcceptNone(r.tools, d.generated);
    match ReadLine(raw)
    case Data(payload) =>
      if d.decode(payload).Some? { n := ChoicesTake(Counted(r, d.decode(payload).value.usage), d.decode(payload).value.choices, d); }
    case _ =>
  }

  /** However the stream is cut, its tool calls are the assembly of the fragments of the lines
      fed, all of them unless a line closed the stream. */
  lemma StreamAssembles(chunks: seq<string>, d: Decoder) returns (n: nat)
    ensures Consumed(chunks, d) <= |Lines(Joined(chunks))|
    ensures n <= |AllFragments(Lines(Joined(chunks))[..Consumed(chunks, d)], d)|
    ensures Read(chunks, d).response.tools ==
      Assembled(AllFragments(Lines(Joined(chunks))[..Consumed(chunks, d)], d)[..n], d.generated)
    ensures !Read(chunks, d).response.closed ==> n == |AllFragments(Lines(Joined(chunks))[..Consumed(chunks, d)], d)|
  {
    hide Feed, FeedAll, Consumed, Lines, Joined, AllFragments, AcceptAll;
    ReadsPrefix(chunks, d);
    var lines := Lines(Joined(chunks))[..Consumed(chunks, d)];
    n := LinesTake(NOTHING, lines, d);
    AcceptAllIsAssembled(AllFragments(lines, d)[..n], d.generated);
  }
}
