/** What a streamed completion amounts to: the texts, the finish reason and the token counts that the
    reader returns, read off the lines it was fed. */
module StreamContent {
  import opened Text
  import opened Protocol
  import opened ToolCalls
  import opened Stream

  // ---------- what the lines carry ----------

  datatype Item = Usage(counts: string) | Part(choice: Choice)

  function Parts(cs: seq<Choice>): seq<Item>
  {
    if cs == [] then [] else [Part(cs[0])] + Parts(cs[1..])
  }

  function LineItems(raw: string, d: Decoder): seq<Item>
  {
    match ReadLine(raw)
    case Data(payload) =>
      (match d.decode(payload)
       case Some(chunk) => (if chunk.usage.Some? then [Usage(chunk.usage.value)] else []) + Parts(chunk.choices)
       case None => [])
    case _ => []
  }

  predicate Marked(lines: seq<string>)
  {
    exists k :: 0 <= k < |lines| && ReadLine(lines[k]) == DoneMark
  }

  /** The counts and choices of the lines before the first done mark, in order. */
  function ItemsOf(lines: seq<string>, d: Decoder): seq<Item>
  {
    if lines == [] then []
    else
      var front := lines[..|lines| - 1];
      ItemsOf(front, d) + if Marked(front) then [] else LineItems(lines[|lines| - 1], d)
  }

  /** The contents, one after another. */
  function Contents(items: seq<Item>): string
  {
    if items == [] then ""
    else
      var x := items[|items| - 1];
      Contents(items[..|items| - 1]) + if x.Part? && x.choice.content.Some? then x.choice.content.value else ""
  }

  function Reasonings(items: seq<Item>): string
  {
    if items == [] then ""
    else
      var x := items[|items| - 1];
      Reasonings(items[..|items| - 1]) + if x.Part? && x.choice.reasoning.Some? then x.choice.reasoning.value else ""
  }

  function Fragments(items: seq<Item>): seq<Fragment>
  {
    if items == [] then []
    else
      var x := items[|items| - 1];
      Fragments(items[..|items| - 1]) + if x.Part? then x.choice.toolCalls else []
  }

  function LastFinish(items: seq<Item>): Option<string>
  {
    if items == [] then None
    else
      var x := items[|items| - 1];
      if x.Part? && x.choice.finish.Some? then x.choice.finish else LastFinish(items[..|items| - 1])
  }

  function LastUsage(items: seq<Item>): Option<string>
  {
    if items == [] then None
    else if items[|items| - 1].Usage? then Some(items[|items| - 1].counts)
    else LastUsage(items[..|items| - 1])
  }

  /** One of the four reasons that end a stream. */
  predicate Finishes(x: Item)
  {
    x.Part? && x.choice.finish.Some?
    && (x.choice.finish.value == "stop" || x.choice.finish.value == "length" || x.choice.finish.value == "tool_calls"
        || x.choice.finish.value == "function_call")
  }

  predicate Finished(items: seq<Item>)
  {
    exists k :: 0 <= k < |items| && Finishes(items[k])
  }

  // ---------- the guard ----------

  /** The reasoning so far repeats itself, or is at its cap, with this piece. */
  predicate Trips(items: seq<Item>, i: nat, d: Decoder)
    requires i < |items|
  {
    items[i].Part? && items[i].choice.reasoning.Some? && items[i].choice.reasoning.value != ""
    && var all := Reasonings(items[..i + 1]);
       (Bytes(all) > 60 && d.detect(all).Some?) || Bytes(all) >= 40_000
  }

  lemma FrontTrips(items: seq<Item>, d: Decoder)
    requires items != []
    ensures forall j :: 0 <= j < |items| - 1 ==> (Trips(items[..|items| - 1], j, d) <==> Trips(items, j, d))
  {
    var front := items[..|items| - 1];
    forall j | 0 <= j < |front| ensures Trips(front, j, d) <==> Trips(items, j, d) {
      assert front[..j + 1] == items[..j + 1];
    }
  }

  /** The first item that trips the guard; past the end when none does. */
  function FirstTrip(items: seq<Item>, d: Decoder): (i: nat)
    ensures i <= |items|
    ensures i < |items| ==> Trips(items, i, d)
    ensures forall j :: 0 <= j < i ==> !Trips(items, j, d)
  {
    if items == [] then 0
    else
      var front := items[..|items| - 1];
      FrontTrips(items, d);
      var i := FirstTrip(front, d);
      if i < |front| || Trips(items, |front|, d) then i else |items|
  }

  /** An item that trips the guard gives its finish reason and its reasoning, and nothing else. */
  function Heard(items: seq<Item>, d: Decoder): (h: nat)
    ensures h <= |items|
  {
    var i := FirstTrip(items, d);
    if i < |items| then i + 1 else i
  }

  lemma TrippedStays(items: seq<Item>, more: seq<Item>, d: Decoder)
    requires FirstTrip(items, d) < |items|
    ensures FirstTrip(items + more, d) == FirstTrip(items, d) && Heard(items + more, d) == Heard(items, d)
    ensures (items + more)[..FirstTrip(items, d)] == items[..FirstTrip(items, d)]
    ensures (items + more)[..Heard(items, d)] == items[..Heard(items, d)]
  {
    var i := FirstTrip(items, d);
    var all := items + more;
    forall j | 0 <= j <= i ensures Trips(all, j, d) <==> Trips(items, j, d) {
      assert all[..j + 1] == items[..j + 1];
    }
    assert Trips(all, i, d);
  }

  // ---------- the response says what the lines carry ----------

  /** The accumulated response, field by field. */
  ghost predicate Says(r: Response, items: seq<Item>, marked: bool, d: Decoder)
  {
    var i, h := FirstTrip(items, d), Heard(items, d);
    r.text == Contents(items[..i])
    && r.tools == AcceptAll(EMPTY, Fragments(items[..i]), d.generated)
    && r.reasoning == Reasonings(items[..h])
    && r.finish == LastFinish(items[..h]) && r.usage == LastUsage(items[..h])
    && r.pattern == (if i < |items| && Bytes(r.reasoning) > 60 then d.detect(r.reasoning) else None)
    && (r.closed <==> i < |items| || marked)
    && (r.done <==> r.closed || Finished(items[..h]))
  }

  lemma FragmentsNext(a: Assembly, items: seq<Item>, x: Item, generated: (nat, nat) -> string)
    requires InRange(a)
    ensures AcceptAll(a, Fragments(items + [x]), generated) ==
      if x.Part? then AcceptAll(AcceptAll(a, Fragments(items), generated), x.choice.toolCalls, generated)
      else AcceptAll(a, Fragments(items), generated)
  {
    hide AcceptAll;
    assert (items + [x])[..|items|] == items;
    if x.Part? {
      AcceptAllConcat(a, Fragments(items), x.choice.toolCalls, generated);
    } else {
      assert Fragments(items) + [] == Fragments(items);
    }
  }

  lemma FinishedNext(items: seq<Item>, x: Item)
    ensures Finished(items + [x]) <==> Finished(items) || Finishes(x)
  {
    hide Finishes;
    if Finished(items) {
      var k :| 0 <= k < |items| && Finishes(items[k]);
      assert (items + [x])[k] == items[k];
    }
    if Finishes(x) { assert (items + [x])[|items|] == x; }
  }

  function AddItem(r: Response, x: Item, d: Decoder): (r': Response)
    requires InRange(r.tools)
    ensures InRange(r'.tools)
  {
    match x
    case Usage(counts) => r.(usage := Some(counts))
    case Part(c) => AddChoice(r, c, d)
  }

  /** The texts and counts with one item more. */
  lemma TextsNext(items: seq<Item>, x: Item)
    ensures Contents(items + [x]) == Contents(items) + (if x.Part? && x.choice.content.Some? then x.choice.content.value else "")
    ensures Reasonings(items + [x]) == Reasonings(items) + (if x.Part? && x.choice.reasoning.Some? then x.choice.reasoning.value else "")
    ensures LastFinish(items + [x]) == if x.Part? && x.choice.finish.Some? then x.choice.finish else LastFinish(items)
    ensures LastUsage(items + [x]) == if x.Usage? then Some(x.counts) else LastUsage(items)
  {
    assert (items + [x])[..|items|] == items;
  }

  lemma OpenNext(items: seq<Item>, x: Item, d: Decoder)
    requires FirstTrip(items, d) == |items|
    ensures var all := items + [x];
      FirstTrip(all, d) == (if Trips(all, |items|, d) then |items| else |all|)
      && all[..|items|] == items && all[..|all|] == all && Heard(all, d) == |all|
  {
    hide Trips;
    assert (items + [x])[..|items|] == items;
  }

  lemma ItemAdded(r: Response, items: seq<Item>, x: Item, d: Decoder)
    requires InRange(r.tools) && Says(r, items, false, d) && !r.closed
    ensures Says(AddItem(r, x, d), items + [x], false, d)
  {
    hide AcceptAll, FirstTrip, Heard, Contents, Reasonings, LastFinish, LastUsage, Fragments, Finished, Bytes;
    var all := items + [x];
    assert items[..|items|] == items && Heard(items, d) == |items| by { AllHeard(items, d); }
    OpenNext(items, x, d);
    TextsNext(items, x);
    FragmentsNext(EMPTY, items, x, d.generated);
    FinishedNext(items, x);
  }

  lemma AllHeard(items: seq<Item>, d: Decoder)
    requires FirstTrip(items, d) >= |items|
    ensures Heard(items, d) == FirstTrip(items, d) == |items|
  {
  }

  lemma ClosedStaysSaid(r: Response, items: seq<Item>, more: seq<Item>, d: Decoder)
    requires Says(r, items, false, d) && r.closed
    ensures Says(r, items + more, false, d)
  {
    hide AcceptAll, FirstTrip, Heard, Contents, Reasonings, LastFinish, LastUsage, Fragments, Finished, Bytes, Trips;
    TrippedStays(items, more, d);
    assert FirstTrip(items, d) < |items| <= |items + more|;
  }

  lemma {:induction false} ChoicesSay(r: Response, items: seq<Item>, cs: seq<Choice>, d: Decoder)
    requires InRange(r.tools) && Says(r, items, false, d)
    ensures Says(AddChoices(r, cs, d), items + Parts(cs), false, d)
    decreases |cs|
  {
    hide Says, AddChoice;
    if cs == [] {
      assert items + Parts(cs) == items;
    } else if r.closed {
      ClosedStaysSaid(r, items, Parts(cs), d);
    } else {
      ItemAdded(r, items, Part(cs[0]), d);
      ChoicesSay(AddChoice(r, cs[0], d), items + [Part(cs[0])], cs[1..], d);
      assert items + [Part(cs[0])] + Parts(cs[1..]) == items + Parts(cs);
    }
  }

  lemma MarkSays(r: Response, items: seq<Item>, d: Decoder)
    requires Says(r, items, false, d) && !r.closed
    ensures Says(r.(done := true, closed := true), items, true, d)
  {
    hide AcceptAll, FirstTrip, Heard, Contents, Reasonings, LastFinish, LastUsage, Fragments, Finished, Bytes;
  }

  lemma MarkedClosed(r: Response, items: seq<Item>, d: Decoder)
    requires Says(r, items, true, d) || (Says(r, items, false, d) && r.closed)
    ensures r.closed && Says(r, items, true, d)
  {
    hide AcceptAll, FirstTrip, Heard, Contents, Reasonings, LastFinish, LastUsage, Fragments, Finished, Bytes;
  }

  lemma LineSays(r: Response, items: seq<Item>, raw: string, d: Decoder)
    requires InRange(r.tools) && Says(r, items, false, d)
    ensures Says(Feed(r, raw, d), items + LineItems(raw, d), ReadLine(raw) == DoneMark, d)
  {
    hide Says, ReadLine, AddChoices;
    if r.closed {
      ClosedStaysSaid(r, items, LineItems(raw, d), d);
      if ReadLine(raw) == DoneMark { MarkedClosed(r, items + LineItems(raw, d), d); }
    } else {
      match ReadLine(raw)
      case Skipped => assert items + LineItems(raw, d) == items;
      case DoneMark =>
        assert items + LineItems(raw, d) == items;
        MarkSays(r, items, d);
      case Data(payload) =>
        match d.decode(payload) {
          case None => assert items + LineItems(raw, d) == items;
          case Some(chunk) => ChunkSays(r, items, chunk, raw, d);
        }
    }
  }

  lemma ChunkSays(r: Response, items: seq<Item>, chunk: Chunk, raw: string, d: Decoder)
    requires InRange(r.tools) && Says(r, items, false, d) && !r.closed
    requires ReadLine(raw).Data? && d.decode(ReadLine(raw).payload) == Some(chunk)
    ensures Says(AddChoices(Counted(r, chunk.usage), chunk.choices, d), items + LineItems(raw, d), false, d)
  {
    hide Says, ReadLine, AddChoices, Parts;
    if chunk.usage.Some? {
      ItemAdded(r, items, Usage(chunk.usage.value), d);
      ChoicesSay(Counted(r, chunk.usage), items + [Usage(chunk.usage.value)], chunk.choices, d);
      assert items + [Usage(chunk.usage.value)] + Parts(chunk.choices) == items + LineItems(raw, d);
    } else {
      ChoicesSay(r, items, chunk.choices, d);
      assert items + Parts(chunk.choices) == items + LineItems(raw, d);
    }
  }

  lemma NothingSays(d: Decoder)
    ensures Says(NOTHING, [], false, d)
  {
  }

  /** After any lines the response says what they carry. */
  lemma {:induction false} LinesSay(lines: seq<string>, d: Decoder)
    ensures Says(FeedAll(NOTHING, lines, d), ItemsOf(lines, d), Marked(lines), d)
  {
    hide Says, Feed, ReadLine, LineItems;
    if lines == [] {
      NothingSays(d);
    } else {
      var front, last := lines[..|lines| - 1], lines[|lines| - 1];
      LinesSay(front, d);
      FeedAllConcat(NOTHING, front, [last], d);
      assert lines == front + [last] && [last][1..] == [];
      var r := FeedAll(NOTHING, front, d);
      MarkedNext(front, last);
      if Marked(front) {
        assert ItemsOf(lines, d) == ItemsOf(front, d);
        MarkedClosed(r, ItemsOf(front, d), d);
        StaysClosed(r, last, d);
      } else {
        LineSays(r, ItemsOf(front, d), last, d);
      }
    }
  }

  lemma StaysClosed(r: Response, raw: string, d: Decoder)
    requires InRange(r.tools) && r.closed
    ensures Feed(r, raw, d) == r
  {
  }

  lemma MarkedNext(lines: seq<string>, last: string)
    ensures Marked(lines + [last]) <==> Marked(lines) || ReadLine(last) == DoneMark
  {
    hide ReadLine;
    var all := lines + [last];
    if Marked(lines) {
      var k :| 0 <= k < |lines| && ReadLine(lines[k]) == DoneMark;
      assert ReadLine(all[k]) == DoneMark;
    }
    if ReadLine(last) == DoneMark { assert all[|lines|] == last; }
  }

  // ---------- the main result ----------

  /** However a stream is cut, what the reader returns are the contents and the tool-call fragments of
      the choices it was fed, in order, up to the one that trips the guard; the reasoning, the last
      finish reason and the last counts with that one; the reasoning cleaned of the pattern that the
      guard found, or with a notice at its cap. */
  lemma ResultSays(chunks: seq<string>, d: Decoder)
    ensures Consumed(chunks, d) <= |Lines(Joined(chunks))|
    ensures var r := Result(Read(chunks, d).response, d);
      var items := ItemsOf(Lines(Joined(chunks))[..Consumed(chunks, d)], d);
      var i, h := FirstTrip(items, d), Heard(items, d);
      var reasoning := Reasonings(items[..h]);
      r.text == Contents(items[..i])
      && r.calls == Assembled(Fragments(items[..i]), d.generated).calls
      && r.finish == LastFinish(items[..h]) && r.usage == LastUsage(items[..h])
      && r.reasoning ==
           if i < |items| && Bytes(reasoning) > 60 && d.detect(reasoning).Some? then d.clean(reasoning, d.detect(reasoning).value)
           else if Bytes(reasoning) >= 40_000 then reasoning + CAP_NOTICE
           else reasoning
  {
    hide Feed, FeedAll, Consumed, Lines, Joined, Read, ItemsOf, FirstTrip, Heard, Contents, Reasonings, LastFinish, LastUsage, Fragments;
    hide Finished, Bytes, AcceptAll, Assembled, Marked;
    ReadsPrefix(chunks, d);
    var lines := Lines(Joined(chunks))[..Consumed(chunks, d)];
    LinesSay(lines, d);
    var items := ItemsOf(lines, d);
    AcceptAllIsAssembled(Fragments(items[..FirstTrip(items, d)]), d.generated);
  }

  /** A stream is over at the first done mark, ending finish reason or tripped guard. */
  lemma DoneSays(lines: seq<string>, d: Decoder)
    ensures FeedAll(NOTHING, lines, d).done <==>
      var items := ItemsOf(lines, d);
      Marked(lines) || FirstTrip(items, d) < |items| || Finished(items)
  {
    hide FeedAll, ItemsOf, FirstTrip, Contents, Reasonings, LastFinish, LastUsage, Fragments, Finished, Bytes, AcceptAll, Marked;
    LinesSay(lines, d);
    var items := ItemsOf(lines, d);
    assert items[..|items|] == items;
  }

  // ---------- one line, read from its text ----------

  /** Text that neither starts nor ends with white space. */
  predicate Bare(core: string)
  {
    core != "" ==> !IsWhitespace(core[0]) && !IsWhitespace(core[|core| - 1])
  }

  lemma {:induction false} TrimStartBlank(lead: string, s: string)
    requires Blank(lead)
    ensures TrimStart(lead + s) == TrimStart(s)
    decreases |lead|
  {
    hide IsWhitespace;
    if lead == "" {
      assert lead + s == s;
    } else {
      assert (lead + s)[1..] == lead[1..] + s && IsWhitespace(lead[0]);
      TrimStartBlank(lead[1..], s);
    }
  }

  lemma {:induction false} TrimEndBlank(s: string, tail: string)
    requires Blank(tail)
    ensures TrimEnd(s + tail) == TrimEnd(s)
    decreases |tail|
  {
    hide IsWhitespace;
    if tail == "" {
      assert s + tail == s;
    } else {
      var front := tail[..|tail| - 1];
      assert (s + tail)[..|s + tail| - 1] == s + front && IsWhitespace(tail[|tail| - 1]);
      TrimEndBlank(s, front);
    }
  }

  lemma TrimBlank(lead: string, core: string, tail: string)
    requires Blank(lead) && Blank(tail) && Bare(core)
    ensures Trim(lead + (core + tail)) == core
  {
    hide IsWhitespace, Blank;
    TrimStartBlank(lead, core + tail);
    if core == "" {
      assert core + tail == tail && tail + "" == tail;
      TrimStartBlank(tail, "");
    } else {
      assert (core + tail)[0] == core[0];
      TrimEndBlank(core, tail);
    }
  }

  lemma {:induction false} CrBlank(s: string, tail: string) returns (rest: string)
    requires Blank(tail) && (s != "" ==> s[|s| - 1] != '\r')
    ensures Blank(rest) && TrimEndCr(s + tail) == s + rest
    decreases |tail|
  {
    hide IsWhitespace;
    rest := tail;
    if tail == "" {
      assert s + tail == s;
    } else if tail[|tail| - 1] == '\r' {
      assert (s + tail)[..|s + tail| - 1] == s + tail[..|tail| - 1];
      rest := CrBlank(s, tail[..|tail| - 1]);
    }
  }

  /** A text is blank exactly when nothing is left of it after trimming. */
  lemma BlankIsTrimmed(s: string)
    ensures Blank(s) <==> Trim(s) == ""
  {
    hide IsWhitespace;
    if Blank(s) {
      assert s + ("" + "") == s && Blank("");
      TrimBlank(s, "", "");
    } else {
      var i :| 0 <= i < |s| && !IsWhitespace(s[i]);
      KeepsCharacter(s, i);
    }
  }

  lemma {:induction false} KeepsCharacter(s: string, i: nat)
    requires i < |s| && !IsWhitespace(s[i])
    ensures Trim(s) != ""
    decreases i
  {
    hide IsWhitespace;
    if IsWhitespace(s[0]) { KeepsCharacter(s[1..], i - 1); } else { KeepsFirst(s); }
  }

  lemma {:induction false} KeepsFirst(s: string)
    requires s != "" && !IsWhitespace(s[0])
    ensures TrimEnd(s) != ""
    decreases |s|
  {
    hide IsWhitespace;
    if IsWhitespace(s[|s| - 1]) { KeepsFirst(s[..|s| - 1]); }
  }

  /** The white space around a line, a carriage return included, does not matter. */
  lemma LineCore(lead: string, core: string, tail: string)
    requires Blank(lead) && Blank(tail) && Bare(core)
    ensures Trim(TrimEndCr(lead + (core + tail))) == core
  {
    hide Trim;
    if core == "" {
      BlankConcat(lead, tail);
      var rest := CrBlank("", lead + tail);
      assert lead + (core + tail) == "" + (lead + tail) && "" + rest == rest + ("" + "");
      TrimBlank(rest, "", "");
    } else {
      assert IsWhitespace('\r');
      var s := lead + core;
      assert s[|s| - 1] == core[|core| - 1];
      var rest := CrBlank(s, tail);
      assert lead + (core + tail) == s + tail && s + rest == lead + (core + rest);
      TrimBlank(lead, core, rest);
    }
  }

  lemma BlankConcat(a: string, b: string)
    requires Blank(a) && Blank(b)
    ensures Blank(a + b)
  {
    hide IsWhitespace;
  }

  /** A line that starts with `data: ` carries what follows, trimmed, or is the done mark. */
  lemma DataLineReads(lead: string, mid: string, payload: string, tail: string)
    requires Blank(lead) && Blank(mid) && Blank(tail) && Bare(payload) && payload != ""
    ensures ReadLine(lead + ("data: " + mid + payload + tail)) == if payload == "[DONE]" then DoneMark else Data(payload)
  {
    hide Trim, TrimEndCr, Blank;
    var core := "data: " + mid + payload;
    assert !IsWhitespace(core[0]) && core[|core| - 1] == payload[|payload| - 1];
    LineCore(lead, core, tail);
    TrimBlank(mid, payload, "") by { assert Blank("") by { NothingBlank(); } }
    assert core[6..] == mid + (payload + "");
  }

  lemma NothingBlank()
    ensures Blank("")
  {
  }

  /** A blank line, a comment and a line of another kind carry nothing. */
  lemma OtherLineReads(lead: string, core: string, tail: string)
    requires Blank(lead) && Blank(tail) && Bare(core)
    requires core == "" || core[0] == ':' || !("data: " <= core)
    ensures ReadLine(lead + (core + tail)) == Skipped
  {
    hide Trim, TrimEndCr, Blank;
    LineCore(lead, core, tail);
  }
}
