/** The steps of one turn as the loop takes them, and how many there can be. */
module Trail {
  datatype Step =
    | Batch(records: nat)   // a batch of tool calls, all answered
    | EmptyRetry            // no text and no calls; the model is asked again
    | Rejection             // a blocking review sent the answer back
    | Last                  // the step that ends the loop

  const MAX_EMPTY_RETRIES: nat := 2
  const MAX_REVIEW_RETRIES: nat := 2

  function Records(t: seq<Step>): nat
  {
    if t == [] then 0
    else Records(t[..|t| - 1]) + (if t[|t| - 1].Batch? then t[|t| - 1].records else 0)
  }

  function Rejections(t: seq<Step>): nat
  {
    if t == [] then 0
    else Rejections(t[..|t| - 1]) + (if t[|t| - 1].Rejection? then 1 else 0)
  }

  /** Empty completions since the last batch of tool calls. */
  function Streak(t: seq<Step>): nat
  {
    if t == [] || t[|t| - 1].Batch? then 0
    else Streak(t[..|t| - 1]) + (if t[|t| - 1].EmptyRetry? then 1 else 0)
  }

  /** Each step starts with tool budget left, nothing follows the last step, every batch records
      a call, and the two kinds of retry stay within their limits. */
  ghost predicate Legal(t: seq<Step>, budget: nat)
  {
    t == [] || (Legal(t[..|t| - 1], budget) && MayFollow(t[..|t| - 1], t[|t| - 1], budget))
  }

  ghost predicate MayFollow(t: seq<Step>, s: Step, budget: nat)
  {
    Records(t) < budget && !Ended(t)
    && match s
       case Batch(records) => records >= 1
       case EmptyRetry => Streak(t) < MAX_EMPTY_RETRIES
       case Rejection => Rejections(t) < MAX_REVIEW_RETRIES
       case Last => true
  }

  ghost predicate Ended(t: seq<Step>) { t != [] && t[|t| - 1].Last? }

  lemma CountsAfter(t: seq<Step>, s: Step)
    ensures Records(t + [s]) == Records(t) + (if s.Batch? then s.records else 0)
    ensures Streak(t + [s]) == (if s.Batch? then 0 else Streak(t) + (if s.EmptyRetry? then 1 else 0))
    ensures Rejections(t + [s]) == Rejections(t) + (if s.Rejection? then 1 else 0)
    ensures Ended(t + [s]) <==> s.Last?
  {
    assert (t + [s])[..|t + [s]| - 1] == t;
  }

  lemma TakeStep(t: seq<Step>, s: Step, budget: nat)
    requires Legal(t, budget) && MayFollow(t, s, budget)
    ensures Legal(t + [s], budget) && |t + [s]| == |t| + 1
    ensures Records(t + [s]) == Records(t) + (if s.Batch? then s.records else 0)
    ensures Streak(t + [s]) == (if s.Batch? then 0 else Streak(t) + (if s.EmptyRetry? then 1 else 0))
    ensures Rejections(t + [s]) == Rejections(t) + (if s.Rejection? then 1 else 0)
    ensures Ended(t + [s]) <==> s.Last?
  {
    CountsAfter(t, s);
    assert (t + [s])[..|t + [s]| - 1] == t;
  }

  function Batches(t: seq<Step>): nat
  {
    if t == [] then 0 else Batches(t[..|t| - 1]) + (if t[|t| - 1].Batch? then 1 else 0)
  }

  lemma {:induction false} TrailCounts(t: seq<Step>, budget: nat)
    requires Legal(t, budget)
    ensures Rejections(t) <= MAX_REVIEW_RETRIES && Streak(t) <= MAX_EMPTY_RETRIES
    ensures Batches(t) <= Records(t) && Batches(t) <= budget
    ensures |t| <= 3 * Batches(t) + Streak(t) + Rejections(t) + (if Ended(t) then 1 else 0)
    ensures Records(t) >= budget > 0 ==> Streak(t) == 0 && !Ended(t)
  {
    if t == [] {
    } else {
      TrailCounts(t[..|t| - 1], budget);
    }
  }

  /** A legal run of the loop takes at most 3B + 2 steps for a tool budget of B: after each batch
      at most two empty retries, two rejections over the whole turn, and the last step only
      while a batch is still to spare. */
  lemma TrailBound(t: seq<Step>, budget: nat)
    requires Legal(t, budget) && budget >= 1
    ensures |t| <= 3 * budget + 2
  {
    TrailCounts(t, budget);
  }

  function LongestTrail(b: nat): seq<Step>
  {
    if b == 0 then [Rejection, Rejection] else LongestTrail(b - 1) + [EmptyRetry] + [EmptyRetry] + [Batch(1)]
  }

  lemma TwoRejections(budget: nat)
    requires budget >= 1
    ensures Legal([Rejection, Rejection], budget) && Records([Rejection, Rejection]) == 0
    ensures Streak([Rejection, Rejection]) == 0
  {
    var none: seq<Step> := [];
    TakeStep(none, Rejection, budget);
    TakeStep(none + [Rejection], Rejection, budget);
    assert none + [Rejection] + [Rejection] == [Rejection, Rejection];
  }

  /** The bound is reached. */
  lemma {:induction false} TrailBoundIsTight(b: nat, budget: nat)
    requires b <= budget && budget >= 1
    ensures Legal(LongestTrail(b), budget) && |LongestTrail(b)| == 3 * b + 2
    ensures Records(LongestTrail(b)) == b && Streak(LongestTrail(b)) == 0 && !Ended(LongestTrail(b))
  {
    if b == 0 {
      TwoRejections(budget);
    } else {
      TrailBoundIsTight(b - 1, budget);
      var t := LongestTrail(b - 1);
      hide Legal, Records, Streak, Rejections;
      TakeStep(t, EmptyRetry, budget);
      TakeStep(t + [EmptyRetry], EmptyRetry, budget);
      TakeStep(t + [EmptyRetry] + [EmptyRetry], Batch(1), budget);
    }
  }
}
