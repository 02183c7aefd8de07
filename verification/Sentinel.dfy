/** The sentinel's loop breaker: a window of the last commands decides whether the next one runs. */
module Sentinel {
  const WINDOW: nat := 40
  const PROBE_LIMIT: nat := 5

  datatype Event =
    | Reset                                                       // session start, turn start, user input
    | ReadTool
    | FileWrite
    | OtherTool                                                   // no shell, or a blank command
    | Shell(broadSearch: bool, mutating: bool, command: string)   // `command` is the normalised text

  datatype Verdict = Passed | BroadSearch | SpeedGuard | LoopBreak | PingPong

  // ---------- the checks ----------

  /** How many commands at the end of the history equal this one. */
  function Repeats(h: seq<string>, c: string): (n: nat)
    ensures n <= |h|
  {
    if h == [] || h[|h| - 1] != c then 0 else 1 + Repeats(h[..|h| - 1], c)
  }

  predicate Oscillates(h: seq<string>, c: string)
  {
    var n := |h|;
    n >= 4 && h[n - 1] == h[n - 3] && h[n - 2] == h[n - 4] && c == h[n - 2]
  }

  function Judge(h: seq<string>, c: string, threshold: nat): Verdict
  {
    if Repeats(h, c) >= threshold then LoopBreak else if Oscillates(h, c) then PingPong else Passed
  }

  function Window(h: seq<string>): seq<string>
  {
    if |h| > WINDOW then h[|h| - WINDOW..] else h
  }

  // ---------- the extension ----------

  datatype State = State(history: seq<string>, probes: nat)

  /** One event, and what it does to the history and the probe counter. */
  function Handle(s: State, e: Event, threshold: nat): (State, Verdict)
  {
    match e
    case Reset => (s.(probes := 0), Passed)
    case ReadTool => (s.(probes := s.probes + 1), Passed)
    case FileWrite => (s.(probes := 0), Passed)
    case OtherTool => (s, Passed)
    case Shell(broad, mutating, c) =>
      if broad then (s, BroadSearch)
      else
        var t := s.(probes := if mutating then 0 else s.probes + 1);
        if t.probes >= PROBE_LIMIT then (t, SpeedGuard)
        else if Judge(s.history, c, threshold) != Passed then (t, Judge(s.history, c, threshold))
        else (t.(history := Window(s.history + [c])), Passed)
  }

  class LoopBreaker {
    var commandHistory: seq<string>
    var probes: nat
    const threshold: nat

    ghost function Abstract(): State reads this { State(commandHistory, probes) }

    constructor (threshold: nat)
      ensures Abstract() == State([], 0) && this.threshold == threshold
    {
      commandHistory, probes := [], 0;
      this.threshold := threshold;
    }

    method CountRepeats(c: string) returns (repeatCount: nat)
      ensures repeatCount == Repeats(commandHistory, c)
    {
      repeatCount := 0;
      var i := |commandHistory|;
      assert commandHistory[..i] == commandHistory;
      while i > 0 && commandHistory[i - 1] == c
        invariant 0 <= i <= |commandHistory|
        invariant repeatCount + Repeats(commandHistory[..i], c) == Repeats(commandHistory, c)
      {
        assert commandHistory[..i][..i - 1] == commandHistory[..i - 1];
        repeatCount := repeatCount + 1;
        i := i - 1;
      }
    }

    method Check(c: string) returns (verdict: Verdict)
      ensures verdict == Judge(commandHistory, c, threshold)
    {
      var repeatCount := CountRepeats(c);
      if repeatCount >= threshold {
        return LoopBreak;
      }
      var n, h := |commandHistory|, commandHistory;
      if n >= 4 && h[n - 1] == h[n - 3] && h[n - 2] == h[n - 4] && c == h[n - 2] {
        return PingPong;
      }
      verdict := Passed;
    }

    method OnEvent(e: Event) returns (verdict: Verdict)
      modifies this
      ensures (Abstract(), verdict) == Handle(old(Abstract()), e, threshold)
    {
      hide Judge;
      match e
      case Reset => probes, verdict := 0, Passed;
      case ReadTool => probes, verdict := probes + 1, Passed;
      case FileWrite => probes, verdict := 0, Passed;
      case OtherTool => verdict := Passed;
      case Shell(broad, mutating, c) =>
        if broad {
          return BroadSearch;
        }
        probes := if mutating then 0 else probes + 1;
        if probes >= PROBE_LIMIT {
          return SpeedGuard;
        }
        verdict := Check(c);
        if verdict != Passed {
          return;
        }
        commandHistory := commandHistory + [c];
        if |commandHistory| > WINDOW {
          commandHistory := commandHistory[|commandHistory| - WINDOW..];
        }
    }
  }

  // ---------- whole runs ----------

  function After(run: seq<Event>, threshold: nat): State
  {
    if run == [] then State([], 0)
    else Handle(After(run[..|run| - 1], threshold), run[|run| - 1], threshold).0
  }

  /** Every command recorded in a run, the forgotten ones included. */
  function Recorded(run: seq<Event>, threshold: nat): seq<string>
  {
    if run == [] then []
    else
      var front, e := run[..|run| - 1], run[|run| - 1];
      Recorded(front, threshold) +
        (if e.Shell? && Handle(After(front, threshold), e, threshold).1 == Passed then [e.command] else [])
  }

  /** Position `i` starts fewer than `n + 1` equal commands. */
  ghost predicate Breaks(s: seq<string>, i: nat, n: nat)
    requires i + n < |s|
  {
    exists j :: i < j <= i + n && s[j] != s[i]
  }

  /** Nowhere more than `n` equal commands in a row. */
  ghost predicate RunsWithin(s: seq<string>, n: nat)
  {
    forall i: nat :: i + n < |s| ==> Breaks(s, i, n)
  }

  predicate OscillatesAt(s: seq<string>, i: nat)
    requires i + 4 < |s|
  {
    s[i] == s[i + 2] == s[i + 4] && s[i + 1] == s[i + 3]
  }

  /** Nowhere X Y X Y X. */
  ghost predicate NoOscillation(s: seq<string>)
  {
    forall i: nat :: i + 4 < |s| ==> !OscillatesAt(s, i)
  }

  // ---------- one check against the limits ----------

  lemma {:induction false} RepeatsAt(h: seq<string>, c: string, n: nat)
    requires n <= |h|
    ensures Repeats(h, c) >= n <==> forall j :: |h| - n <= j < |h| ==> h[j] == c
  {
    if n > 0 && h[|h| - 1] == c {
      var front := h[..|h| - 1];
      RepeatsAt(front, c, n - 1);
      assert forall j :: 0 <= j < |front| ==> front[j] == h[j];
    }
  }

  /** Recording a command keeps the runs short exactly when it is not yet repeated `n` times. */
  lemma RepeatCheckIsExact(s: seq<string>, c: string, n: nat)
    requires RunsWithin(s, n)
    ensures Repeats(s, c) < n <==> RunsWithin(s + [c], n)
  {
    var r := s + [c];
    if Repeats(s, c) < n {
      forall i: nat | i + n < |r| ensures Breaks(r, i, n) {
        if i + n < |s| {
          assert Breaks(s, i, n);
          var j :| i < j <= i + n && s[j] != s[i];
          assert r[j] != r[i];
        } else {
          RepeatsAt(s, c, n);
          var j :| |s| - n <= j < |s| && s[j] != c;
          assert r[j] == s[j] && r[i + n] == c;
          if r[j] == r[i] {
            assert r[i + n] != r[i];
          }
        }
      }
    } else {
      RepeatsAt(s, c, n);
      assert !Breaks(r, |s| - n, n);
    }
  }

  lemma OscillationCheckIsExact(s: seq<string>, c: string)
    requires NoOscillation(s)
    ensures !Oscillates(s, c) <==> NoOscillation(s + [c])
  {
    var r := s + [c];
    if Oscillates(s, c) {
      assert OscillatesAt(r, |s| - 4);
    } else {
      forall i: nat | i + 4 < |r| ensures !OscillatesAt(r, i) {
        if i + 4 < |s| {
          assert !OscillatesAt(s, i);
        }
      }
    }
  }

  // ---------- the window ----------

  /** The oscillation check alone keeps every run of equal commands to four. */
  lemma OscillationBoundsRuns(s: seq<string>)
    requires NoOscillation(s)
    ensures RunsWithin(s, 4)
  {
    forall i: nat | i + 4 < |s| ensures Breaks(s, i, 4) {
      assert !OscillatesAt(s, i);
      var j := if s[i + 1] != s[i] then i + 1 else if s[i + 2] != s[i] then i + 2 else if s[i + 3] != s[i] then i + 3 else i + 4;
      assert s[j] != s[i];
    }
  }

  lemma ShortRepeats(s: seq<string>, c: string)
    requires NoOscillation(s)
    ensures Repeats(s, c) <= 4
  {
    if |s| >= 5 {
      OscillationBoundsRuns(s);
      assert Breaks(s, |s| - 5, 4);
      var j :| |s| - 5 < j < |s| && s[j] != s[|s| - 5];
      RepeatsAt(s, c, 5);
    }
  }

  lemma {:induction false} RepeatsOfSuffix(s: seq<string>, k: nat, c: string)
    requires k <= |s|
    ensures Repeats(s[k..], c) == if Repeats(s, c) <= |s| - k then Repeats(s, c) else |s| - k
  {
    if k < |s| && s[|s| - 1] == c {
      assert s[k..][..|s| - k - 1] == s[..|s| - 1][k..];
      RepeatsOfSuffix(s[..|s| - 1], k, c);
    }
  }

  /** The window is enough: on a history without oscillation it gives the verdict the whole
      history would, for every threshold. */
  lemma WindowDecides(s: seq<string>, c: string, threshold: nat)
    requires NoOscillation(s)
    ensures Judge(Window(s), c, threshold) == Judge(s, c, threshold)
  {
    if |s| > WINDOW {
      ShortRepeats(s, c);
      RepeatsOfSuffix(s, |s| - WINDOW, c);
    }
  }

  lemma NothingRecorded(threshold: nat)
    ensures RunsWithin([], threshold) && NoOscillation([]) && Window([]) == []
  {
  }

  lemma PassKeepsLimits(s: seq<string>, c: string, threshold: nat)
    requires RunsWithin(s, threshold) && NoOscillation(s)
    requires Judge(Window(s), c, threshold) == Passed
    ensures RunsWithin(s + [c], threshold) && NoOscillation(s + [c])
    ensures Window(Window(s) + [c]) == Window(s + [c])
  {
    WindowDecides(s, c, threshold);
    RepeatCheckIsExact(s, c, threshold);
    OscillationCheckIsExact(s, c);
  }

  // ---------- whole runs: the results ----------

  /** In every run and for every threshold, the full record of commands, of which only a window is
      kept, has no run of equal commands over the threshold and no X Y X Y X. */
  lemma {:induction false} LimitsHold(run: seq<Event>, threshold: nat)
    ensures After(run, threshold).history == Window(Recorded(run, threshold))
    ensures RunsWithin(Recorded(run, threshold), threshold)
    ensures NoOscillation(Recorded(run, threshold))
  {
    hide Judge, Window, RunsWithin, NoOscillation;
    if run == [] {
      NothingRecorded(threshold);
    } else {
      var front, e := run[..|run| - 1], run[|run| - 1];
      var s, r := After(front, threshold), Recorded(front, threshold);
      LimitsHold(front, threshold);
      if e.Shell? && Handle(s, e, threshold).1 == Passed {
        PassKeepsLimits(r, e.command, threshold);
      } else {
        assert Recorded(run, threshold) == r;
      }
    }
  }

  /** A command that gets past the two guards before it is refused exactly when recording it would
      break one of the two limits on the whole run, not just on the window. */
  lemma RefusedExactlyWhenItLoops(run: seq<Event>, e: Event, threshold: nat)
    requires e.Shell?
    ensures
      var r, v := Recorded(run, threshold), Handle(After(run, threshold), e, threshold).1;
      !v.BroadSearch? && !v.SpeedGuard? ==>
        (v == Passed <==> RunsWithin(r + [e.command], threshold) && NoOscillation(r + [e.command]))
  {
    var r := Recorded(run, threshold);
    LimitsHold(run, threshold);
    WindowDecides(r, e.command, threshold);
    RepeatCheckIsExact(r, e.command, threshold);
    OscillationCheckIsExact(r, e.command);
  }

  /** A prompt, a file write, and a command that changes something and gets as far as the counter. */
  predicate Clears(e: Event)
  {
    e.Reset? || e.FileWrite? || (e.Shell? && !e.broadSearch && e.mutating)
  }

  lemma ProbesCount(s: State, e: Event, threshold: nat)
    requires !Clears(e)
    ensures Handle(s, e, threshold).0.probes >= s.probes
    ensures e.Shell? && Handle(s, e, threshold).1 == Passed ==> s.probes < Handle(s, e, threshold).0.probes < PROBE_LIMIT
  {
    hide Judge;
  }

  /** Between two events that clear the probe counter at most four commands are recorded. */
  lemma {:induction false} ProbesBounded(run: seq<Event>, i: nat, threshold: nat)
    requires i <= |run|
    requires forall k :: i <= k < |run| ==> !Clears(run[k])
    ensures |Recorded(run, threshold)| <= |Recorded(run[..i], threshold)| + 4
    ensures |Recorded(run, threshold)| <= |Recorded(run[..i], threshold)| + After(run, threshold).probes
  {
    if i == |run| {
      assert run[..i] == run;
    } else {
      hide Handle;
      var front := run[..|run| - 1];
      ProbesBounded(front, i, threshold);
      ProbesCount(After(front, threshold), run[|run| - 1], threshold);
      assert front[..i] == run[..i];
    }
  }

  // ---------- what each event does ----------

  /** Reads, and commands that change nothing, count as probes. */
  predicate CountsAsProbe(e: Event)
  {
    e.ReadTool? || (e.Shell? && !e.broadSearch && !e.mutating)
  }

  /** Read from the events: which of them clear the counter and which raise it, that a broad search is
      refused and the fifth probe in a row too, and that nothing but a passed command is recorded. */
  lemma HandleReads(s: State, e: Event, threshold: nat)
    ensures var (t, verdict) := Handle(s, e, threshold);
      t.probes == (if Clears(e) then 0
                   else if CountsAsProbe(e) then s.probes + 1 else s.probes)
      && (e.Shell? && e.broadSearch <==> verdict == BroadSearch)
      && (e.Shell? && !e.broadSearch && t.probes >= 5 <==> verdict == SpeedGuard)
      && (verdict != Passed || !e.Shell? ==> t.history == s.history)
      && (e.Shell? && verdict == Passed ==> t.history == Window(s.history + [e.command]))
      && (!e.Shell? ==> verdict == Passed)
  {
    hide Judge, Window;
    if e.Shell? { JudgeIsOther(s.history, e.command, threshold); }
  }

  lemma JudgeIsOther(h: seq<string>, c: string, threshold: nat)
    ensures Judge(h, c, threshold) != BroadSearch && Judge(h, c, threshold) != SpeedGuard
  {
  }

  /** The window holds the last forty commands. */
  lemma WindowReads(h: seq<string>)
    ensures |Window(h)| == (if |h| <= 40 then |h| else 40)
    ensures forall i :: 0 <= i < |Window(h)| ==> Window(h)[i] == h[|h| - |Window(h)| + i]
  {
  }

  function Probes(run: seq<Event>): nat
  {
    if run == [] then 0 else Probes(run[..|run| - 1]) + (if CountsAsProbe(run[|run| - 1]) then 1 else 0)
  }

  /** In every run the counter is the number of probes since the last event that clears it. */
  lemma {:induction false} CounterIsProbes(run: seq<Event>, i: nat, threshold: nat)
    requires i <= |run| && (i == 0 || Clears(run[i - 1]))
    requires forall k :: i <= k < |run| ==> !Clears(run[k])
    ensures After(run, threshold).probes == Probes(run[i..])
  {
    hide Handle;
    if i == |run| {
      if i > 0 { HandleReads(After(run[..i - 1], threshold), run[i - 1], threshold); }
    } else {
      var front := run[..|run| - 1];
      CounterIsProbes(front, i, threshold);
      HandleReads(After(front, threshold), run[|run| - 1], threshold);
      assert run[i..][..|run[i..]| - 1] == front[i..];
    }
  }
}
