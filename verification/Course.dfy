/** The course of a turn as a function of the world: which steps the loop takes, when it stops, and
    what the clock reads at the top of each round. */
module Course {
  import opened Text
  import opened Protocol
  import opened Trail
  import opened TurnLoop

  // ---------- the clock ----------

  /** Journal writes of steps that went on: a batch writes its call message and its results. */
  function Written(t: seq<Step>): nat
  {
    if t == [] then 0
    else
      Written(t[..|t| - 1]) +
        match t[|t| - 1]
        case Batch(records) => 1 + records
        case Rejection => 1
        case _ => 0
  }

  /** What the clock reads at the top of the round after these steps: one look at the token each
      round and one before each call, the prompt's write before the first round. */
  function ClockAt(t: seq<Step>): Clock
  {
    Clock(|t| + Records(t), 1 + Written(t), Records(t))
  }

  /** The clock when a batch of that round is run, its call message written. */
  function BatchClock(t: seq<Step>): Clock
  {
    Clock(ClockAt(t).checks + 1, ClockAt(t).writes + 1, ClockAt(t).tools)
  }

  // ---------- one step ----------

  /** Whether a call of an earlier step may have changed code. */
  function Modified(w: World, t: seq<Step>): bool
  {
    t != [] &&
    (Modified(w, t[..|t| - 1]) ||
      (t[|t| - 1].Batch? && w.reply(|t| - 1).Completion?
       && AnyModifies(w.reply(|t| - 1).toolCalls, |w.reply(|t| - 1).toolCalls|)))
  }

  /** A blocking review sends the answer of this round back. */
  predicate ReviewRejects(w: World, t: seq<Step>)
  {
    var r := w.reviewer(|t| + 1);
    r.blocking && r.available && (r.always || Modified(w, t) || Rejections(t) > 0)
    && Rejections(t) < MAX_REVIEW_RETRIES && w.verdict(|t| + 1).Rejected?
  }

  ghost predicate BatchRuns(w: World, t: seq<Step>, calls: seq<ToolCall>)
  {
    w.writes(ClockAt(t).writes) && AllUndisturbed(w, BatchClock(t), |calls|)
  }

  /** The reply of this round carries calls, their message is journaled, and then a cancellation or
      a failed write stops the batch before its end. */
  ghost predicate CutsBatch(w: World, t: seq<Step>)
  {
    var reply := w.reply(|t|);
    reply.Completion? && reply.toolCalls != [] && w.writes(ClockAt(t).writes)
    && !AllUndisturbed(w, BatchClock(t), |reply.toolCalls|)
  }

  /** Of a batch's results one fails to be written, and all before it were. */
  ghost predicate FailsToWrite(w: World, clock: Clock, n: nat)
  {
    exists k: nat :: k < n && FailsAt(w, clock, k)
  }

  ghost predicate FailsAt(w: World, clock: Clock, k: nat)
  {
    AllUndisturbed(w, clock, k) && !w.cancelled(clock.checks + k) && !w.writes(clock.writes + k)
  }

  /** The step the loop takes after the steps so far. */
  ghost function StepTaken(w: World, t: seq<Step>): Step
  {
    match w.reply(|t|)
    case ModelError(_) => Last
    case Completion(text, _, calls) =>
      if calls != [] then
        if BatchRuns(w, t, calls) then Batch(|calls|) else Last
      else if Blank(text) then
        if Streak(t) < MAX_EMPTY_RETRIES then EmptyRetry else Last
      else if ReviewRejects(w, t) then Rejection
      else Last
  }

  /** An earlier batch of the turn ran a tool that may change code. */
  ghost predicate ChangedCode(w: World, t: seq<Step>)
  {
    exists k, j :: 0 <= k < |t| && t[k].Batch? && w.reply(k).Completion? && 0 <= j < |w.reply(k).toolCalls|
      && MayChangeCode(w.reply(k).toolCalls[j].name)
  }

  predicate MayChangeCode(tool: string)
  {
    tool == "edit" || tool == "write" || tool == "search_replace" || tool == "bash" || tool == "managed_bash"
  }

  lemma ModifiesRead(calls: seq<ToolCall>)
    ensures AnyModifies(calls, |calls|) <==> exists j :: 0 <= j < |calls| && MayChangeCode(calls[j].name)
  {
    forall j | 0 <= j < |calls| ensures calls[j].name in MODIFYING_TOOLS <==> MayChangeCode(calls[j].name) {
      assert MODIFYING_TOOLS[0] == "edit" && MODIFYING_TOOLS[1] == "write" && MODIFYING_TOOLS[2] == "search_replace"
        && MODIFYING_TOOLS[3] == "bash" && MODIFYING_TOOLS[4] == "managed_bash";
    }
  }

  lemma {:induction false} ModifiedRead(w: World, t: seq<Step>)
    ensures Modified(w, t) <==> ChangedCode(w, t)
  {
    hide MayChangeCode, AnyModifies;
    if t == [] {
    } else {
      var front, k := t[..|t| - 1], |t| - 1;
      ModifiedRead(w, front);
      if w.reply(k).Completion? { ModifiesRead(w.reply(k).toolCalls); }
      if ChangedCode(w, front) {
        var i, j :| 0 <= i < |front| && front[i].Batch? && w.reply(i).Completion? && 0 <= j < |w.reply(i).toolCalls|
          && MayChangeCode(w.reply(i).toolCalls[j].name);
        assert t[i] == front[i];
      }
      if ChangedCode(w, t) {
        var i, j :| 0 <= i < |t| && t[i].Batch? && w.reply(i).Completion? && 0 <= j < |w.reply(i).toolCalls|
          && MayChangeCode(w.reply(i).toolCalls[j].name);
        if i < k { assert front[i] == t[i]; }
      }
    }
  }

  /** Which step is taken, read from the world: a batch exactly when its message is written and every
      call starts uncancelled and has its result written; two retries of an empty completion in a row;
      two rejections in a turn, by a blocking review that is always on or follows a change of code or a
      rejection. */
  lemma StepTakenRead(w: World, t: seq<Step>)
    ensures w.reply(|t|).ModelError? ==> StepTaken(w, t) == Last
    ensures w.reply(|t|).Completion? ==>
      var reply, s := w.reply(|t|), StepTaken(w, t);
      if reply.toolCalls != [] then
        if w.writes(1 + Written(t)) && RunOn(w, |t| + Records(t) + 1, 2 + Written(t), |reply.toolCalls|)
        then s == Batch(|reply.toolCalls|) else s == Last
      else if Blank(reply.text) then s == if Streak(t) < 2 then EmptyRetry else Last
      else
        var r := w.reviewer(|t| + 1);
        if r.blocking && r.available && (r.always || ChangedCode(w, t) || Rejections(t) > 0)
           && Rejections(t) < 2 && w.verdict(|t| + 1).Rejected?
        then s == Rejection else s == Last
  {
    hide Blank, Records, Streak, Rejections, Written, ChangedCode, Modified, AllUndisturbed, RunOn;
    ModifiedRead(w, t);
    if w.reply(|t|).Completion? { UndisturbedRead(w, BatchClock(t), |w.reply(|t|).toolCalls|); }
  }

  /** A journal write that the loop does not forgive fails in this round: of the call message, of a
      result whose call was not cancelled first, or of the closing entry. */
  ghost predicate JournalBreaks(w: World, t: seq<Step>)
  {
    match w.reply(|t|)
    case ModelError(_) => false
    case Completion(text, _, calls) =>
      if calls != [] then !w.writes(ClockAt(t).writes) || FailsToWrite(w, BatchClock(t), |calls|)
      else StepTaken(w, t).Last? && !w.writes(ClockAt(t).writes)
  }

  /** When a batch is cut and when the journal breaks, read from the world: looks and writes are
      numbered through the turn. */
  lemma DisturbancesRead(w: World, t: seq<Step>)
    requires w.reply(|t|).Completion?
    ensures var calls := w.reply(|t|).toolCalls;
      var checks, writes := |t| + Records(t) + 1, 2 + Written(t);
      (CutsBatch(w, t) <==> calls != [] && w.writes(1 + Written(t)) && !RunOn(w, checks, writes, |calls|))
      && (JournalBreaks(w, t) <==>
            if calls != [] then
              !w.writes(1 + Written(t))
              || exists k: nat :: k < |calls| && RunOn(w, checks, writes, k) && !w.cancelled(checks + k) && !w.writes(writes + k)
            else StepTaken(w, t).Last? && !w.writes(1 + Written(t)))
  {
    hide Blank, Records, Streak, Rejections, Written, StepTaken, AllUndisturbed, RunOn;
    var clock, n := BatchClock(t), |w.reply(|t|).toolCalls|;
    UndisturbedRead(w, clock, n);
    forall k: nat ensures AllUndisturbed(w, clock, k) <==> RunOn(w, clock.checks, clock.writes, k) { UndisturbedRead(w, clock, k); }
    if exists k: nat :: k < n && RunOn(w, clock.checks, clock.writes, k) && !w.cancelled(clock.checks + k) && !w.writes(clock.writes + k) {
      var k: nat :| k < n && RunOn(w, clock.checks, clock.writes, k) && !w.cancelled(clock.checks + k) && !w.writes(clock.writes + k);
      assert FailsAt(w, clock, k);
    }
  }

  // ---------- the whole course ----------

  predicate Stops(w: World, maxSteps: nat, budget: nat, t: seq<Step>)
  {
    |t| >= maxSteps || (t != [] && t[|t| - 1].Last?) || w.cancelled(ClockAt(t).checks) || Records(t) >= budget
  }

  ghost function CourseFrom(w: World, maxSteps: nat, budget: nat, t: seq<Step>): seq<Step>
    decreases if |t| >= maxSteps then 0 else maxSteps - |t|
  {
    if Stops(w, maxSteps, budget, t) then t
    else CourseFrom(w, maxSteps, budget, t + [StepTaken(w, t)])
  }

  ghost function TrailOf(w: World, maxSteps: nat, budget: nat): seq<Step>
  {
    CourseFrom(w, maxSteps, budget, [])
  }

  ghost predicate OnCourse(w: World, maxSteps: nat, budget: nat, t: seq<Step>)
  {
    CourseFrom(w, maxSteps, budget, t) == TrailOf(w, maxSteps, budget)
  }

  lemma StaysOnCourse(w: World, maxSteps: nat, budget: nat, t: seq<Step>)
    requires OnCourse(w, maxSteps, budget, t) && !Stops(w, maxSteps, budget, t)
    ensures OnCourse(w, maxSteps, budget, t + [StepTaken(w, t)])
  {
    hide Stops, StepTaken;
  }

  lemma CourseEnds(w: World, maxSteps: nat, budget: nat, t: seq<Step>)
    requires OnCourse(w, maxSteps, budget, t) && Stops(w, maxSteps, budget, t)
    ensures t == TrailOf(w, maxSteps, budget)
  {
    hide Stops, StepTaken;
  }

  /** The course is made of rounds that no guard stops, each of the step that the world determines. */
  lemma TrailRead(w: World, maxSteps: nat, budget: nat, k: nat)
    requires k < |TrailOf(w, maxSteps, budget)|
    ensures var t := TrailOf(w, maxSteps, budget);
      t[k] == StepTaken(w, t[..k]) && k < maxSteps && (k + 1 < |t| ==> !t[k].Last?)
      && !w.cancelled(k + Records(t[..k])) && Records(t[..k]) < budget
  {
    hide StepTaken, Records;
    FurtherRead(w, maxSteps, budget, [], k);
  }

  lemma {:induction false} FurtherRead(w: World, maxSteps: nat, budget: nat, t: seq<Step>, k: nat)
    requires |t| <= k < |CourseFrom(w, maxSteps, budget, t)|
    ensures var u := CourseFrom(w, maxSteps, budget, t);
      t <= u && u[k] == StepTaken(w, u[..k]) && !Stops(w, maxSteps, budget, u[..k])
      && (k + 1 < |u| ==> !Stops(w, maxSteps, budget, u[..k + 1]))
    decreases k - |t|
  {
    hide StepTaken, Stops;
    var next := t + [StepTaken(w, t)];
    assert !Stops(w, maxSteps, budget, t);
    if k > |t| {
      FurtherRead(w, maxSteps, budget, next, k);
    } else {
      CourseGrows(w, maxSteps, budget, next);
      var u := CourseFrom(w, maxSteps, budget, next);
      assert u[..k] == t && u[..k + 1] == next;
    }
  }

  /** The course goes on from where it is, and where it ends a guard stops it. */
  lemma {:induction false} CourseGrows(w: World, maxSteps: nat, budget: nat, t: seq<Step>)
    ensures var u := CourseFrom(w, maxSteps, budget, t);
      t <= u && Stops(w, maxSteps, budget, u) && (t != u ==> !Stops(w, maxSteps, budget, t))
    decreases if |t| >= maxSteps then 0 else maxSteps - |t|
  {
    hide StepTaken;
    if !Stops(w, maxSteps, budget, t) { CourseGrows(w, maxSteps, budget, t + [StepTaken(w, t)]); }
  }

  /** It ends at a step that ends the turn, or where a guard stops it. */
  lemma TrailEnds(w: World, maxSteps: nat, budget: nat)
    ensures var t := TrailOf(w, maxSteps, budget);
      Ended(t) || |t| >= maxSteps || w.cancelled(|t| + Records(t)) || Records(t) >= budget
  {
    hide CourseFrom, Records;
    CourseGrows(w, maxSteps, budget, []);
  }

  /** The clock moves from round to round as the steps say. */
  lemma ClockAfter(t: seq<Step>, s: Step)
    ensures var c, c' := ClockAt(t), ClockAt(t + [s]);
      match s
      case Batch(n) => c' == Clock(c.checks + 1 + n, c.writes + 1 + n, c.tools + n)
      case Rejection => c' == Clock(c.checks + 1, c.writes + 1, c.tools)
      case _ => c' == Clock(c.checks + 1, c.writes, c.tools)
  {
    assert (t + [s])[..|t + [s]| - 1] == t;
  }

  // ---------- the bound on the steps is reached ----------

  const TIGHT_ANSWER: ModelReply := Completion("x", "", [])
  const TIGHT_EMPTY: ModelReply := Completion("", "", [])
  const TIGHT_BATCH: ModelReply := Completion("", "", [ToolCall("c", "read", Arguments("", None))])

  function TightReply(k: nat): ModelReply
  {
    if k < 2 then TIGHT_ANSWER else if k % 3 == 1 then TIGHT_BATCH else TIGHT_EMPTY
  }

  /** Two answers, both rejected; then two empty completions before every batch of one call. */
  function TightWorld(p: Prompts): World
  {
    World(true, n => false, n => true, TightReply, n => ToolOutcome("", false, "", None),
      n => Reviewer(true, true, true), n => Rejected(""), p)
  }

  function TightNext(t: seq<Step>): Step
  {
    if |t| < 2 then (if Rejections(t) < MAX_REVIEW_RETRIES then Rejection else Last)
    else if |t| % 3 == 1 then Batch(1)
    else if Streak(t) < MAX_EMPTY_RETRIES then EmptyRetry
    else Last
  }

  lemma TightStep(p: Prompts, t: seq<Step>)
    ensures StepTaken(TightWorld(p), t) == TightNext(t)
  {
    hide Streak, Rejections;
    assert !Blank("x") by { assert "x"[0] == 'x'; }
    assert Blank("");
  }

  lemma TightNeverStops(p: Prompts, maxSteps: nat, budget: nat, t: seq<Step>)
    ensures Stops(TightWorld(p), maxSteps, budget, t) <==> |t| >= maxSteps || Ended(t) || Records(t) >= budget
  {
    hide Records;
  }

  /** One round in that world. */
  lemma Advance(p: Prompts, maxSteps: nat, budget: nat, t: seq<Step>, s: Step)
    requires OnCourse(TightWorld(p), maxSteps, budget, t)
    requires |t| < maxSteps && Records(t) < budget && !Ended(t) && s == TightNext(t)
    ensures OnCourse(TightWorld(p), maxSteps, budget, t + [s])
  {
    hide *;
    TightStep(p, t);
    TightNeverStops(p, maxSteps, budget, t);
    StaysOnCourse(TightWorld(p), maxSteps, budget, t);
  }

  lemma {:induction false} ReachesLongest(p: Prompts, maxSteps: nat, budget: nat, b: nat)
    requires b <= budget && budget >= 1 && 3 * budget + 2 <= maxSteps
    ensures OnCourse(TightWorld(p), maxSteps, budget, LongestTrail(b))
  {
    hide OnCourse, TightWorld, Records, Streak, Rejections, Legal;
    if b == 0 {
      TwoRejectionsFirst(p, maxSteps, budget);
    } else {
      var t := LongestTrail(b - 1);
      ReachesLongest(p, maxSteps, budget, b - 1);
      TrailBoundIsTight(b - 1, budget);
      CountsAfter(t, EmptyRetry);
      CountsAfter(t + [EmptyRetry], EmptyRetry);
      Advance(p, maxSteps, budget, t, EmptyRetry);
      Advance(p, maxSteps, budget, t + [EmptyRetry], EmptyRetry);
      Advance(p, maxSteps, budget, t + [EmptyRetry] + [EmptyRetry], Batch(1));
    }
  }

  lemma TwoRejectionsFirst(p: Prompts, maxSteps: nat, budget: nat)
    requires budget >= 1 && maxSteps >= 2
    ensures OnCourse(TightWorld(p), maxSteps, budget, LongestTrail(0))
  {
    hide OnCourse, TightWorld, Streak;
    var none: seq<Step> := [];
    StartsOnCourse(p, maxSteps, budget);
    CountsAfter(none, Rejection);
    Advance(p, maxSteps, budget, none, Rejection);
    Advance(p, maxSteps, budget, none + [Rejection], Rejection);
    assert none + [Rejection] + [Rejection] == [Rejection, Rejection];
  }

  lemma StartsOnCourse(p: Prompts, maxSteps: nat, budget: nat)
    ensures OnCourse(TightWorld(p), maxSteps, budget, [])
  {
    hide CourseFrom;
  }

  /** There is a world, never cancelled and with every write succeeding, in which the loop takes
      3B + 2 steps for any tool budget B and any step limit that leaves room for them. */
  lemma BoundIsReached(p: Prompts, maxSteps: nat, budget: nat)
    requires budget >= 1 && 3 * budget + 2 <= maxSteps
    ensures Sticky(TightWorld(p)) && forall n :: !TightWorld(p).cancelled(n) && TightWorld(p).writes(n)
    ensures TrailOf(TightWorld(p), maxSteps, budget) == LongestTrail(budget)
    ensures |TrailOf(TightWorld(p), maxSteps, budget)| == 3 * budget + 2
  {
    hide StepTaken, CourseFrom, Records, Streak, Rejections, Legal;
    ReachesLongest(p, maxSteps, budget, budget);
    TrailBoundIsTight(budget, budget);
    TightNeverStops(p, maxSteps, budget, LongestTrail(budget));
    CourseEnds(TightWorld(p), maxSteps, budget, LongestTrail(budget));
  }
}
