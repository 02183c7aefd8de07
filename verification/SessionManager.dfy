/** The engine's session manager: prompts, aborts and finishing turns interleave over one shared
    map of active sessions. Every atomic section is one step. */
module SessionManager {
  datatype Phase = Fetched | Running | Done

  /** A prompt's turn, with its cancellation token: `Fetched` has its turn id but has not taken
      the lock yet, `Running` is registered, `Done` has passed its finisher. */
  datatype Task = Task(session: string, cancelled: bool, phase: Phase)

  datatype State = State(active: map<string, nat>, turnCounter: nat, tasks: map<nat, Task>)

  datatype Action =
    | FetchTurn(session: string)
    | Register(turn: nat)
    | Abort(session: string)
    | Finish(turn: nat)

  const INITIAL: State := State(map[], 1, map[])

  function Cancel(tasks: map<nat, Task>, turn: nat): map<nat, Task>
  {
    if turn in tasks then tasks[turn := tasks[turn].(cancelled := true)] else tasks
  }

  predicate Enabled(s: State, a: Action)
  {
    match a
    case Register(t) => t in s.tasks && s.tasks[t].phase == Fetched
    case Finish(t) => t in s.tasks && s.tasks[t].phase == Running
    case _ => true
  }

  function Step(s: State, a: Action): State
  {
    if !Enabled(s, a) then s
    else
      match a
      case FetchTurn(sid) =>
        s.(turnCounter := s.turnCounter + 1, tasks := s.tasks[s.turnCounter := Task(sid, false, Fetched)])
      case Register(t) =>
        var sid := s.tasks[t].session;
        var tasks := if sid in s.active then Cancel(s.tasks, s.active[sid]) else s.tasks;
        s.(active := s.active[sid := t], tasks := tasks[t := s.tasks[t].(phase := Running)])
      case Abort(sid) =>
        if sid in s.active then s.(tasks := Cancel(s.tasks, s.active[sid])) else s
      case Finish(t) =>
        var sid := s.tasks[t].session;
        s.(active := if sid in s.active && s.active[sid] == t then s.active - {sid} else s.active,
           tasks := s.tasks[t := s.tasks[t].(phase := Done)])
  }

  /** The state after any interleaving of atomic sections. */
  function After(run: seq<Action>): State
  {
    if run == [] then INITIAL else Step(After(run[..|run| - 1]), run[|run| - 1])
  }

  // ---------- the manager ----------

  class EngineSessionManager {
    var activeSessions: map<string, nat>
    var turnCounter: nat
    var tasks: map<nat, Task>
    /** The atomic sections taken so far, in the order they took effect. */
    ghost var run: seq<Action>

    ghost function Abstract(): State
      reads this
    {
      State(activeSessions, turnCounter, tasks)
    }

    /** The fields are those of some interleaving: what holds of every run holds here. */
    ghost predicate Valid()
      reads this
    {
      Abstract() == After(run)
    }

    constructor ()
      ensures Valid() && run == []
    {
      activeSessions, turnCounter, tasks := map[], 1, map[];
      run := [];
    }

    /** A session runs exactly while its newest registered turn is unfinished; when it does not
        run, every unfinished turn of it is cancelled. */
    method IsRunning(session: string) returns (running: bool)
      requires Valid()
      ensures running <==> NewestUnfinished(run, session)
      ensures !running ==> forall t :: LiveIn(Abstract(), t, session) ==> tasks[t].cancelled
    {
      running := session in activeSessions;
      RunningIsNewest(run, session);
      RunKeepsInv(run);
    }

    /** `fetch_add` on the turn counter, before the lock is taken. */
    method NextTurnId(session: string) returns (turnId: nat)
      requires Valid()
      modifies this
      ensures Valid() && run == old(run) + [FetchTurn(session)]
      ensures turnId == old(turnCounter)
    {
      turnId := turnCounter;
      turnCounter := turnCounter + 1;
      tasks := tasks[turnId := Task(session, false, Fetched)];
      run := run + [FetchTurn(session)];
    }

    /** The locked section of `prompt`: cancel the session's existing turn, insert this one. */
    method RegisterTurn(turnId: nat)
      requires Valid() && turnId in tasks && tasks[turnId].phase == Fetched
      modifies this
      ensures Valid() && run == old(run) + [Register(turnId)]
    {
      var task := tasks[turnId];
      if task.session in activeSessions {
        tasks := Cancel(tasks, activeSessions[task.session]);
      }
      activeSessions := activeSessions[task.session := turnId];
      tasks := tasks[turnId := task.(phase := Running)];
      NotItself(run, turnId);
      run := run + [Register(turnId)];
    }

    method AbortSession(session: string)
      requires Valid()
      modifies this
      ensures Valid() && run == old(run) + [Abort(session)]
    {
      if session in activeSessions {
        tasks := Cancel(tasks, activeSessions[session]);
      }
      run := run + [Abort(session)];
    }

    /** The last section of the spawned task: remove the entry only if it is still this turn's. */
    method FinishTurn(turnId: nat)
      requires Valid() && turnId in tasks && tasks[turnId].phase == Running
      modifies this
      ensures Valid() && run == old(run) + [Finish(turnId)]
    {
      var session := tasks[turnId].session;
      if session in activeSessions && activeSessions[session] == turnId {
        activeSessions := activeSessions - {session};
      }
      tasks := tasks[turnId := tasks[turnId].(phase := Done)];
      run := run + [Finish(turnId)];
    }
  }

  // ---------- safety over every interleaving ----------

  ghost predicate LiveIn(s: State, t: nat, session: string)
  {
    t in s.tasks && s.tasks[t].phase == Running && s.tasks[t].session == session
  }

  ghost predicate Inv(s: State)
  {
    (forall sid :: sid in s.active ==> LiveIn(s, s.active[sid], sid))
    && (forall t :: t in s.tasks && s.tasks[t].phase == Running && !s.tasks[t].cancelled ==>
          s.tasks[t].session in s.active && s.active[s.tasks[t].session] == t)
    && (forall t :: t in s.tasks ==> t < s.turnCounter)
    && (forall t :: t in s.tasks && s.tasks[t].phase == Fetched ==> !s.tasks[t].cancelled)
  }

  lemma StepKeepsInv(s: State, a: Action)
    requires Inv(s)
    ensures Inv(Step(s, a))
  {
    var s' := Step(s, a);
    if Enabled(s, a) && a.Register? {
      var sid := s.tasks[a.turn].session;
      forall t | t in s'.tasks && s'.tasks[t].phase == Running && !s'.tasks[t].cancelled
        ensures s'.tasks[t].session in s'.active && s'.active[s'.tasks[t].session] == t
      {
        if t != a.turn { assert t in s.tasks && !s.tasks[t].cancelled; }
      }
    }
  }

  lemma {:induction false} RunKeepsInv(run: seq<Action>)
    ensures Inv(After(run))
  {
    if run == [] {
    } else {
      RunKeepsInv(run[..|run| - 1]);
      StepKeepsInv(After(run[..|run| - 1]), run[|run| - 1]);
    }
  }

  lemma IdsAreFetched(run: seq<Action>)
    ensures forall t :: t in After(run).tasks ==> t < After(run).turnCounter
  {
    RunKeepsInv(run);
  }

  lemma NotItself(run: seq<Action>, t: nat)
    requires t in After(run).tasks && After(run).tasks[t].phase == Fetched
    ensures forall sid :: sid in After(run).active ==> After(run).active[sid] != t
  {
    RunKeepsInv(run);
  }

  /** The turn that an action registers for a session, if any. */
  function Registers(s: State, a: Action, session: string): seq<nat>
  {
    if a.Register? && Enabled(s, a) && s.tasks[a.turn].session == session then [a.turn] else []
  }

  /** The turns of a session in the order they were registered. */
  function Registered(run: seq<Action>, session: string): seq<nat>
  {
    if run == [] then []
    else Registered(run[..|run| - 1], session) + Registers(After(run[..|run| - 1]), run[|run| - 1], session)
  }

  predicate Unfinished(s: State, turns: seq<nat>)
  {
    turns != [] && turns[|turns| - 1] in s.tasks && s.tasks[turns[|turns| - 1]].phase == Running
  }

  predicate NewestUnfinished(run: seq<Action>, session: string)
  {
    Unfinished(After(run), Registered(run, session))
  }

  predicate Newest(s: State, turns: seq<nat>, session: string)
  {
    (session in s.active <==> Unfinished(s, turns))
    && (session in s.active ==> turns != [] && s.active[session] == turns[|turns| - 1])
    && (turns != [] ==>
          turns[|turns| - 1] in s.tasks
          && s.tasks[turns[|turns| - 1]].session == session
          && s.tasks[turns[|turns| - 1]].phase != Fetched)
  }

  lemma StepKeepsNewest(s: State, turns: seq<nat>, a: Action, session: string)
    requires Newest(s, turns, session)
    requires forall t :: t in s.tasks ==> t < s.turnCounter
    ensures Newest(Step(s, a), turns + Registers(s, a, session), session)
  {
    if Registers(s, a, session) == [] {
      assert turns + Registers(s, a, session) == turns;
      match a
      case FetchTurn(_) =>
      case Register(_) =>
      case Abort(_) =>
      case Finish(_) =>
    }
  }

  /** A session is in the map exactly while its newest registered turn is unfinished, and its
      entry is that turn: read from the run alone, whatever the turn ids are. */
  lemma {:induction false} RunningIsNewest(run: seq<Action>, session: string)
    ensures Newest(After(run), Registered(run, session), session)
  {
    if run == [] {
    } else {
      hide Step, Newest;
      RunningIsNewest(run[..|run| - 1], session);
      IdsAreFetched(run[..|run| - 1]);
      StepKeepsNewest(After(run[..|run| - 1]), Registered(run[..|run| - 1], session), run[|run| - 1], session);
    }
  }

  /** When a session is not running, every unfinished turn of it is cancelled. */
  lemma NotRunningMeansCancelled(run: seq<Action>, session: string)
    requires session !in After(run).active
    ensures forall t :: LiveIn(After(run), t, session) ==> After(run).tasks[t].cancelled
  {
    RunKeepsInv(run);
  }

  /** In every run a session has at most one unfinished turn that is not cancelled, and that
      turn is the one in the map. */
  lemma OneLiveTurnPerSession(run: seq<Action>, session: string, t: nat)
    requires LiveIn(After(run), t, session) && !After(run).tasks[t].cancelled
    ensures session in After(run).active && After(run).active[session] == t
    ensures forall u :: LiveIn(After(run), u, session) && u != t ==> After(run).tasks[u].cancelled
  {
    RunKeepsInv(run);
  }

  /** When every registered turn has finished, no session is left in the map. */
  lemma MapDrains(run: seq<Action>)
    requires forall t :: t in After(run).tasks ==> After(run).tasks[t].phase != Running
    ensures After(run).active == map[]
  {
    RunKeepsInv(run);
    var s := After(run);
    assert forall sid :: sid in s.active ==> LiveIn(s, s.active[sid], sid);
    assert s.active.Keys == {};
  }

  /** A finisher removes its own entry and no other: a stale one leaves a newer turn in place,
      whichever order the turn ids were registered in. */
  lemma StaleFinisherKeepsNewer(run: seq<Action>, t: nat, session: string)
    ensures var s, s' := After(run), After(run + [Finish(t)]);
      (session in s.active && s.active[session] != t ==> session in s'.active && s'.active[session] == s.active[session])
      && (LiveIn(s, t, session) && session in s.active && s.active[session] == t ==> session !in s'.active)
      && (forall u :: u in s.tasks && u != t ==> u in s'.tasks && s'.tasks[u] == s.tasks[u])
  {
    assert (run + [Finish(t)])[..|run|] == run;
    RunKeepsInv(run);
  }

  lemma StepIrrevocable(s: State, a: Action, t: nat)
    requires t in s.tasks && t < s.turnCounter
    ensures t in Step(s, a).tasks && Step(s, a).tasks[t].session == s.tasks[t].session
    ensures s.tasks[t].cancelled ==> Step(s, a).tasks[t].cancelled
    ensures s.tasks[t].phase == Done ==> Step(s, a).tasks[t].phase == Done
  {
  }

  /** A cancelled turn stays cancelled and a finished one stays finished. */
  lemma {:induction false} Irrevocable(run: seq<Action>, more: seq<Action>, t: nat)
    requires t in After(run).tasks
    ensures var s, s' := After(run), After(run + more);
      t in s'.tasks && s'.tasks[t].session == s.tasks[t].session
      && (s.tasks[t].cancelled ==> s'.tasks[t].cancelled)
      && (s.tasks[t].phase == Done ==> s'.tasks[t].phase == Done)
  {
    hide Step, Inv;
    if more == [] {
      assert run + more == run;
    } else {
      var front, a := more[..|more| - 1], more[|more| - 1];
      assert (run + more)[..|run + more| - 1] == run + front;
      Irrevocable(run, front, t);
      IdsAreFetched(run + front);
      StepIrrevocable(After(run + front), a, t);
    }
  }

  /** Registering a prompt supersedes the session: the new turn is the live one, every other
      unfinished turn of the session is cancelled but goes on until it finishes itself, and other
      sessions are untouched. */
  lemma PromptSupersedes(run: seq<Action>, t: nat)
    requires Enabled(After(run), Register(t))
    ensures var s, s' := After(run), After(run + [Register(t)]);
      var sid := s.tasks[t].session;
      LiveIn(s', t, sid) && !s'.tasks[t].cancelled && sid in s'.active && s'.active[sid] == t
      && (forall u :: LiveIn(s', u, sid) && u != t ==> s'.tasks[u].cancelled)
      && (forall u :: LiveIn(s, u, sid) ==> LiveIn(s', u, sid))
      && (forall u :: u in s.tasks && s.tasks[u].session != sid ==> u in s'.tasks && s'.tasks[u] == s.tasks[u])
  {
    assert (run + [Register(t)])[..|run|] == run;
    RunKeepsInv(run);
    RunKeepsInv(run + [Register(t)]);
  }

  /** An abort cancels the session's live turn and touches nothing else. */
  lemma AbortCancelsLiveTurn(run: seq<Action>, session: string)
    ensures var s, s' := After(run), After(run + [Abort(session)]);
      s'.active == s.active
      && (forall u :: LiveIn(s', u, session) ==> s'.tasks[u].cancelled)
      && (forall u :: u in s.tasks && s.tasks[u].session != session ==> u in s'.tasks && s'.tasks[u] == s.tasks[u])
  {
    assert (run + [Abort(session)])[..|run|] == run;
    RunKeepsInv(run);
  }

  /** Turn ids are 1, 2, 3, ... in the order in which they are fetched, each with its session and a
      token of its own. */
  function Fetches(run: seq<Action>): nat
  {
    if run == [] then 0 else Fetches(run[..|run| - 1]) + (if run[|run| - 1].FetchTurn? then 1 else 0)
  }

  lemma {:induction false} IdsCountFetches(run: seq<Action>, session: string)
    ensures After(run).turnCounter == 1 + Fetches(run)
    ensures var s, s' := After(run), After(run + [FetchTurn(session)]);
      s'.active == s.active && s'.tasks == s.tasks[1 + Fetches(run) := Task(session, false, Fetched)]
  {
    assert (run + [FetchTurn(session)])[..|run|] == run;
    if run == [] {
    } else {
      IdsCountFetches(run[..|run| - 1], session);
    }
  }
}
