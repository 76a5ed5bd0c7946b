/** The two managers and the boot sweep as the source runs them: statement by statement
    over shared tables, each call proved to be one step of model A (internal/agent/manager.go,
    internal/agent/sweep.go, internal/workspace/manager.go, internal/git). */
module Managers {
  import opened Wrappers
  import opened Status
  import opened WorkspaceRow
  import opened Events
  import opened World
  import opened Lifecycle
  import opened ModelA
  import opened Runs
  import L = CostLedger
  import O = Outcomes
  import Sessions

  /** The workspaces and messages tables behind the single connection. */
  class Database {
    var clock: int
    var projects: map<string, Project>
    var rows: map<Id, Workspace>
    var issued: set<Id>
    var log: seq<LogEntry>
    ghost var writes: seq<StatusWrite>

    constructor (clock: int, projects: map<string, Project>)
      ensures State() == Db(clock, projects, map[], {}, [], [])
    {
      this.clock, this.projects, rows, issued, log, writes := clock, projects, map[], {}, [], [];
    }

    ghost function State(): Db
      reads this
    {
      Db(clock, projects, rows, issued, log, writes)
    }

    method GetWorkspace(id: Id) returns (r: Option<Workspace>)
      ensures r == if id in rows then Some(rows[id]) else None
    {
      r := if id in rows then Some(rows[id]) else None;
    }

    method GetProject(pid: string) returns (r: Option<Project>)
      ensures r == if pid in projects then Some(projects[pid]) else None
    {
      r := if pid in projects then Some(projects[pid]) else None;
    }

    method UpdateWorkspace(id: Id, p: Patch) returns (found: bool)
      modifies this`rows, this`writes
      ensures State() == Update(old(State()), id, p) && found == (id in old(rows))
    {
      found := id in rows;
      if found {
        writes := writes + WriteLog(rows[id], id, p);
        rows := rows[id := Applied(p, rows[id], clock)];
      }
    }

    method CreateMessage(id: Id, role: Role, content: string) returns (found: bool)
      modifies this`log
      ensures State() == AddMessage(old(State()), id, role, content) && found == (id in rows)
    {
      found := id in rows;
      if found {
        log := log + [LogEntry(id, role, content)];
      }
    }

    /** The scoped UPDATE of the branch column in Prepare. */
    method SetBranch(id: Id, branch: string)
      modifies this`rows
      ensures id in old(rows) ==> rows == old(rows)[id := old(rows)[id].(branch := branch)]
      ensures id !in old(rows) ==> rows == old(rows)
    {
      if id in rows {
        rows := rows[id := rows[id].(branch := branch)];
      }
    }
  }

  /** What subscribers of a workspace are handed. */
  function HeardFrom(id: Id, evs: seq<AgentEvent>): seq<(Id, AgentEvent)> {
    seq(|evs|, i requires 0 <= i < |evs| => (id, evs[i]))
  }

  lemma OneMoreHeard(db: Db, a: Adapter, n: nat)
    requires n < |a.buf|
    ensures HeardFrom(a.ws, a.buf[..n + 1]) == HeardFrom(a.ws, a.buf[..n]) + [(a.ws, a.buf[n])]
    ensures HandleAll(db, a.ws, a.buf[..n + 1], a.cancelled) ==
            HandleEvent(HandleAll(db, a.ws, a.buf[..n], a.cancelled), a.ws, a.buf[n], a.cancelled)
    ensures a.buf[n..][0] == a.buf[n] && a.buf[n..][1..] == a.buf[n + 1..]
  {
    assert a.buf[..n + 1][..n] == a.buf[..n];
  }

  /** The events of one stream, handled one after the other. */
  function HandleAll(db: Db, id: Id, evs: seq<AgentEvent>, cancelled: bool): Db {
    if evs == [] then db
    else HandleEvent(HandleAll(db, id, evs[..|evs| - 1], cancelled), id, evs[|evs| - 1], cancelled)
  }

  lemma EventAddsUp(db: Db, id: Id, ev: AgentEvent)
    requires id in db.rows
    ensures var db' := HandleEvent(db, id, ev, false);
            && id in db'.rows
            && L.TotalsOf(db'.rows[id]) ==
               if CostOf(ev).Some? then L.Held(L.Add(L.TotalsOf(db.rows[id]), CostOf(ev).value))
               else L.TotalsOf(db.rows[id])
  {
  }

  lemma LedgerStep(t: L.Totals, start: L.Totals, sofar: L.Totals, c: Cost)
    requires t == L.Held(L.Plus(start, sofar))
    ensures L.Held(L.Add(t, c)) == L.Held(L.Plus(start, L.Add(sofar, c)))
  {
    L.WrapAdds(start.tokensIn + sofar.tokensIn, c.tokensIn);
    L.WrapAdds(start.tokensOut + sofar.tokensOut, c.tokensOut);
  }

  lemma EventCounts(db: Db, id: Id, ev: AgentEvent, start: L.Totals, sofar: L.Totals)
    requires id in db.rows && L.TotalsOf(db.rows[id]) == L.Held(L.Plus(start, sofar))
    ensures var db' := HandleEvent(db, id, ev, false);
            && id in db'.rows
            && L.TotalsOf(db'.rows[id]) ==
               L.Held(L.Plus(start, if CostOf(ev).Some? then L.Add(sofar, CostOf(ev).value) else sofar))
  {
    EventAddsUp(db, id, ev);
    if CostOf(ev).Some? {
      LedgerStep(L.TotalsOf(db.rows[id]), start, sofar, CostOf(ev).value);
    }
  }

  /** What a live drain does to the totals, however many turns end on the way: it adds the
      fold of CostOf over the events it took. */
  lemma {:induction false} DrainAddsUp(db: Db, id: Id, evs: seq<AgentEvent>, start: L.Totals)
    requires id in db.rows && L.TotalsOf(db.rows[id]) == L.Held(start)
    ensures var db' := HandleAll(db, id, evs, false);
            id in db'.rows && L.TotalsOf(db'.rows[id]) == L.Held(L.Plus(start, L.LogTotals(evs)))
  {
    if evs == [] {
      assert L.Plus(start, L.ZERO) == start;
    } else {
      var front, last := evs[..|evs| - 1], evs[|evs| - 1];
      DrainAddsUp(db, id, front, start);
      EventCounts(HandleAll(db, id, front, false), id, last, start, L.LogTotals(front));
    }
  }

  /** What a live drain leaves in the log: each event it took, under its own role and in order,
      and after a done event that failed the workspace the notice of that; nothing else. */
  lemma {:induction false} DrainTells(db: Db, id: Id, evs: seq<AgentEvent>)
    requires id in db.rows
    ensures var db' := HandleAll(db, id, evs, false); id in db'.rows && O.TellsAll(id, evs, db.log, db'.log)
  {
    if evs != [] {
      var front, last := evs[..|evs| - 1], evs[|evs| - 1];
      DrainTells(db, id, front);
      var mid := HandleAll(db, id, front, false);
      O.LiveEventTakes(mid, id, last);
      var entries := O.TakesTells(mid, HandleEvent(mid, id, last, false), id, last);
    }
  }

  /** A cancelled drain persists no event and counts no cost, whatever it still takes. */
  lemma {:induction false} CancelledDrainCountsNothing(db: Db, id: Id, evs: seq<AgentEvent>)
    requires id in db.rows
    ensures var db' := HandleAll(db, id, evs, true);
            && id in db'.rows && L.TotalsOf(db'.rows[id]) == L.TotalsOf(db.rows[id])
            && |db.log| <= |db'.log| && db'.log[..|db.log|] == db.log
            && forall i :: |db.log| <= i < |db'.log| ==> db'.log[i].role == System
  {
    if evs != [] {
      var front, last := evs[..|evs| - 1], evs[|evs| - 1];
      CancelledDrainCountsNothing(db, id, front);
      CancelledEvent(HandleAll(db, id, front, true), id, last);
    }
  }

  lemma CancelledEvent(db: Db, id: Id, ev: AgentEvent)
    requires id in db.rows
    ensures var db' := HandleEvent(db, id, ev, true);
            && id in db'.rows && L.TotalsOf(db'.rows[id]) == L.TotalsOf(db.rows[id])
            && |db.log| <= |db'.log| <= |db.log| + 1 && db'.log[..|db.log|] == db.log
            && (|db'.log| > |db.log| ==> db'.log[|db.log|].role == System)
  {
  }

  // ---- the sessions of the ledger and the handoff ----

  /** Their steps write the statuses that the calls here write. */
  lemma SessionsWriteTheSame(db: Db, id: Id, ev: AgentEvent, s: Sessions.State)
    requires id in db.rows && s.status == db.rows[id].status
    ensures ev.kind == EventDone ==>
              HandleTerminal(db, id, ev).rows[id].status == Sessions.Finished(s.status, ev)
    ensures s.session.Some? ==>
              CancelIfLive(db, id).rows[id].status == Sessions.Step(s, Sessions.Stop).status
  {
    NoWayOut(s.status);
  }

  // ---- what model A proves of every call ----

  /** With whatever repositories: the invariant of model A is kept, and every status written
      is one that `turn` allows. */
  ghost predicate Sound(db: Db, ag: Agents, db': Db, ag': Agents, turn: Option<Id>) {
    forall git: Git :: Inv(World(db, ag, git)) ==> Inv(World(db', ag', git)) && WritesGrow(db, db', turn)
  }

  /** With whatever sessions: likewise, and git history only grows. */
  ghost predicate SoundGit(db: Db, git: Git, db': Db, git': Git) {
    forall ag: Agents :: Inv(World(db, ag, git)) ==>
      Inv(World(db', ag, git')) && WritesGrow(db, db', None) && GitGrows(git, git')
  }

  lemma StartSound(db: Db, ag: Agents, id: Id, aid: AdapterId, prompt: string, f: bool, s: bool, p: bool)
    requires aid !in ag.adapters
    ensures var r := Start(db, ag, id, aid, prompt, f, s, p); Sound(db, ag, r.0, r.1, None)
  {
    forall git: Git | Inv(World(db, ag, git))
      ensures var r := Start(db, ag, id, aid, prompt, f, s, p); Inv(World(r.0, r.1, git)) && WritesGrow(db, r.0, None)
    {
      StepKeeps(World(db, ag, git), StartWs(id, aid, prompt, f, s, p));
    }
  }

  lemma PromptSound(db: Db, ag: Agents, id: Id, prompt: string, ok: bool)
    ensures Sound(db, ag, SendPrompt(db, ag, id, prompt, ok).0, ag, None)
  {
    forall git: Git | Inv(World(db, ag, git))
      ensures var r := SendPrompt(db, ag, id, prompt, ok); Inv(World(r.0, ag, git)) && WritesGrow(db, r.0, None)
    {
      StepKeeps(World(db, ag, git), PromptWs(id, prompt, ok));
    }
  }

  lemma StopSound(db: Db, ag: Agents, id: Id)
    ensures Sound(db, ag, Stop(db, ag, id).0, Stop(db, ag, id).1, None)
  {
    forall git: Git | Inv(World(db, ag, git))
      ensures var r := Stop(db, ag, id); Inv(World(r.0, r.1, git)) && WritesGrow(db, r.0, None)
    {
      StepKeeps(World(db, ag, git), StopWs(id));
    }
  }

  lemma CompleteSound(db: Db, ag: Agents, id: Id)
    ensures Sound(db, ag, Complete(db, id).0, ag, None)
  {
    forall git: Git | Inv(World(db, ag, git))
      ensures Inv(World(Complete(db, id).0, ag, git)) && WritesGrow(db, Complete(db, id).0, None)
    {
      StepKeeps(World(db, ag, git), CompleteWs(id));
    }
  }

  function TurnOf(a: Adapter): Option<Id>
    requires a.buf != []
  {
    if IsTurnComplete(a.buf[0]) then Some(a.ws) else None
  }

  lemma DrainSound(db: Db, ag: Agents, aid: AdapterId)
    requires Draining(ag, aid) && ag.adapters[aid].buf != []
    ensures var r := DrainEvent(db, ag, aid); Sound(db, ag, r.0, r.1, TurnOf(ag.adapters[aid]))
  {
    forall git: Git | Inv(World(db, ag, git))
      ensures var r := DrainEvent(db, ag, aid);
              Inv(World(r.0, r.1, git)) && WritesGrow(db, r.0, TurnOf(ag.adapters[aid]))
    {
      StepKeeps(World(db, ag, git), TakeEvent(aid));
    }
  }

  lemma ClosedSound(db: Db, ag: Agents, aid: AdapterId)
    requires Draining(ag, aid) && ag.adapters[aid].buf == [] && ag.adapters[aid].closed
    ensures var r := DrainClosed(db, ag, aid); Sound(db, ag, r.0, r.1, None)
  {
    forall git: Git | Inv(World(db, ag, git))
      ensures var r := DrainClosed(db, ag, aid); Inv(World(r.0, r.1, git)) && WritesGrow(db, r.0, None)
    {
      StepKeeps(World(db, ag, git), TakeClosed(aid));
    }
  }

  lemma PrepareSound(db: Db, git: Git, id: Id, ok: bool)
    ensures var r := Prepare(db, git, id, ok); SoundGit(db, git, r.0, r.1)
  {
    forall ag: Agents | Inv(World(db, ag, git))
      ensures var r := Prepare(db, git, id, ok);
              Inv(World(r.0, ag, r.1)) && WritesGrow(db, r.0, None) && GitGrows(git, r.1)
    {
      PrepareKeeps(World(db, ag, git), id, ok);
    }
  }

  lemma CancelSound(db: Db, git: Git, id: Id)
    ensures SoundGit(db, git, Cancel(db, id).0, git)
  {
    forall ag: Agents | Inv(World(db, ag, git))
      ensures Inv(World(Cancel(db, id).0, ag, git)) && WritesGrow(db, Cancel(db, id).0, None) && GitGrows(git, git)
    {
      StepKeeps(World(db, ag, git), CancelWs(id));
    }
  }

  lemma MergeSound(db: Db, git: Git, id: Id, tree: MergeTree, ok: bool)
    ensures var r := Merge(db, git, id, tree, ok); SoundGit(db, git, r.0, r.1)
  {
    forall ag: Agents | Inv(World(db, ag, git))
      ensures var r := Merge(db, git, id, tree, ok);
              Inv(World(r.0, ag, r.1)) && WritesGrow(db, r.0, None) && GitGrows(git, r.1)
    {
      MergeKeeps(World(db, ag, git), id, tree, ok);
    }
  }

  /** agent.Manager: the session map, the channels of the adapters it has made, and what it
      has handed to broadcast. */
  class AgentManager {
    const db: Database
    var sessions: map<Id, AdapterId>
    var adapters: map<AdapterId, Adapter>
    var heard: seq<(Id, AgentEvent)>

    constructor (db: Database)
      ensures this.db == db && State() == Agents(map[], map[]) && heard == []
    {
      this.db, sessions, adapters, heard := db, map[], map[], [];
    }

    ghost function State(): Agents
      reads this
    {
      Agents(sessions, adapters)
    }

    ghost predicate Valid()
      reads this
    {
      forall id :: id in sessions ==> sessions[id] in adapters
    }

    method Cancel(aid: AdapterId)
      modifies this`adapters
      ensures State() == CancelContext(old(State()), aid)
    {
      if aid in adapters {
        adapters := adapters[aid := adapters[aid].(cancelled := true)];
      }
    }

    method StopAdapter(aid: AdapterId)
      modifies this`adapters
      ensures State() == CloseChannel(old(State()), aid)
    {
      if aid in adapters {
        adapters := adapters[aid := adapters[aid].(closed := true)];
      }
    }

    method Cleanup(id: Id)
      modifies this`sessions, this`adapters
      ensures State() == CleanupSession(old(State()), id)
    {
      if id in sessions {
        var aid := sessions[id];
        sessions := sessions - {id};
        Cancel(aid);
      }
    }

    method Fail(id: Id, cause: string)
      modifies db
      ensures db.State() == MarkFailed(old(db.State()), id, cause)
      ensures O.Fails(old(db.State()), db.State(), id, cause)
    {
      O.MarkFailedFails(db.State(), id, cause);
      var ws := db.GetWorkspace(id);
      if ws.None? || IsTerminal(ws.value.status) {
        return;
      }
      var _ := db.UpdateWorkspace(id, FinalPatch(Failed, db.clock));
      var _ := db.CreateMessage(id, System, "Workspace failed: " + cause);
    }

    /** Start; `aid` names the adapter the factory returns, the flags its answers. */
    method StartAgent(id: Id, aid: AdapterId, prompt: string, factoryOk: bool, spawnOk: bool, promptOk: bool)
      returns (err: Error)
      requires Valid() && aid !in adapters
      modifies this`sessions, this`adapters, db
      ensures Valid()
      ensures (db.State(), State(), err) ==
              Start(old(db.State()), old(State()), id, aid, prompt, factoryOk, spawnOk, promptOk)
      ensures Sound(old(db.State()), old(State()), db.State(), State(), None)
    {
      StartSound(db.State(), State(), id, aid, prompt, factoryOk, spawnOk, promptOk);
      var ws := db.GetWorkspace(id);
      if ws.None? {
        return WorkspaceNotFound;
      }
      if !CanTransition(ws.value.status, Running) {
        return InvalidTransition;
      }
      if ws.value.worktreePath == "" {
        return NoWorktree;
      }
      if !factoryOk {
        return FactoryFailed;
      }
      if !spawnOk {
        Fail(id, "spawn");
        return SpawnFailed;
      }
      var _ := db.UpdateWorkspace(id, NO_CHANGE.(status := Some(Running), startedAt := Some(db.clock)));
      if id in sessions {
        adapters := adapters[aid := Adapter(id, [], false, true, false)];
        StopAdapter(sessions[id]);
        return AlreadyActive;
      }
      adapters := adapters[aid := Adapter(id, [], false, false, false)];
      sessions := sessions[id := aid];
      if !promptOk {
        Cleanup(id);
        Fail(id, "initial prompt");
        return PromptFailed;
      }
      var _ := db.CreateMessage(id, User, prompt);
      adapters := adapters[aid := adapters[aid].(draining := true)];
      assert adapters == old(adapters)[aid := Adapter(id, [], false, false, true)];
      return NoError;
    }

    method Prompt(id: Id, prompt: string, promptOk: bool) returns (err: Error)
      modifies db
      ensures (db.State(), err) == SendPrompt(old(db.State()), State(), id, prompt, promptOk)
      ensures O.Prompts(old(db.State()), State(), db.State(), id, prompt, promptOk, err)
      ensures Sound(old(db.State()), State(), db.State(), State(), None)
    {
      PromptSound(db.State(), State(), id, prompt, promptOk);
      O.SendPromptPrompts(db.State(), State(), id, prompt, promptOk);
      if id !in sessions {
        return NotActive;
      }
      var ws := db.GetWorkspace(id);
      if ws.None? {
        return WorkspaceNotFound;
      }
      if !CanTransition(ws.value.status, Running) {
        return InvalidTransition;
      }
      var _ := db.UpdateWorkspace(id, StatusPatch(Running));
      if !promptOk {
        Fail(id, "send prompt");
        return PromptFailed;
      }
      var _ := db.CreateMessage(id, User, prompt);
      return NoError;
    }

    method StopAgent(id: Id)
      requires Valid()
      modifies this`sessions, this`adapters, db
      ensures Valid()
      ensures (db.State(), State()) == Stop(old(db.State()), old(State()), id)
      ensures O.Stops(old(db.State()), old(State()), db.State(), State(), id)
      ensures Sound(old(db.State()), old(State()), db.State(), State(), None)
    {
      StopSound(db.State(), State(), id);
      O.StopStops(db.State(), State(), id);
      if id !in sessions {
        return;
      }
      var aid := sessions[id];
      Cancel(aid);
      StopAdapter(aid);
      var ws := db.GetWorkspace(id);
      if ws.Some? && !IsTerminal(ws.value.status) && CanTransition(ws.value.status, Cancelled) {
        var _ := db.UpdateWorkspace(id, FinalPatch(Cancelled, db.clock));
      }
      Cleanup(id);
    }

    method CompleteWorkspace(id: Id) returns (err: Error)
      modifies db
      ensures (db.State(), err) == Complete(old(db.State()), id)
      ensures O.Completes(old(db.State()), db.State(), id, err)
      ensures Sound(old(db.State()), State(), db.State(), State(), None)
    {
      CompleteSound(db.State(), State(), id);
      O.CompleteCompletes(db.State(), id);
      var ws := db.GetWorkspace(id);
      if ws.None? {
        return WorkspaceNotFound;
      }
      if ws.value.status == Completed {
        return NoError;
      }
      if !CanTransition(ws.value.status, Completed) {
        return InvalidTransition;
      }
      var _ := db.UpdateWorkspace(id, FinalPatch(Completed, db.clock));
      return NoError;
    }

    /** applyCost: a read, then a write of the three totals. */
    method AddCost(id: Id, ev: AgentEvent)
      modifies db
      ensures db.State() == ApplyCost(old(db.State()), id, ev)
      ensures O.Counts(old(db.State()), db.State(), id, ev)
    {
      O.ApplyCostCounts(db.State(), id, ev);
      var c := CostOf(ev);
      if c.None? {
        return;
      }
      var ws := db.GetWorkspace(id);
      if ws.None? {
        return;
      }
      var tokensIn, tokensOut := Wrap64(ws.value.tokensIn + c.value.tokensIn),
                                 Wrap64(ws.value.tokensOut + c.value.tokensOut);
      var cost := ws.value.costUsd + c.value.costUsd;
      var totals := NO_CHANGE.(tokensIn := Some(tokensIn), tokensOut := Some(tokensOut), costUsd := Some(cost));
      var _ := db.UpdateWorkspace(id, totals);
    }

    method FinishTurn(id: Id, ev: AgentEvent)
      modifies db
      ensures db.State() == HandleTerminal(old(db.State()), id, ev)
      ensures ev.kind == EventDone ==> O.EndsTurn(old(db.State()), db.State(), id, ev)
    {
      if ev.kind == EventDone {
        O.TerminalEndsTurn(db.State(), id, ev);
      }
      match DoneReasonOf(ev)
      case TurnComplete => var _ := db.UpdateWorkspace(id, StatusPatch(AwaitingInput));
      case Stopped =>
      case ErrorReason => Fail(id, "agent: error");
      case ProcessExit => Fail(id, "agent: process_exit");
      case OtherReason(text) => Fail(id, "agent: unknown reason " + text);
    }

    /** The event case of the drain's select. The event is broadcast even when nothing could
        be persisted. */
    method DrainOne(aid: AdapterId)
      requires Valid() && Draining(State(), aid) && adapters[aid].buf != []
      modifies this, db
      ensures Valid()
      ensures (db.State(), State()) == DrainEvent(old(db.State()), old(State()), aid)
      ensures var a := old(adapters[aid]);
              if a.cancelled then O.Finishes(old(db.State()), db.State(), a.ws, a.buf[0])
              else O.Takes(old(db.State()), db.State(), a.ws, a.buf[0])
      ensures heard == old(heard) + [(old(adapters[aid].ws), old(adapters[aid].buf[0]))]
      ensures Sound(old(db.State()), old(State()), db.State(), State(), TurnOf(old(adapters[aid])))
    {
      DrainSound(db.State(), State(), aid);
      var a := adapters[aid];
      var ev := a.buf[0];
      O.LiveEventTakes(db.State(), a.ws, ev);
      O.CancelledEventTakes(db.State(), a.ws, ev);
      adapters := adapters[aid := a.(buf := a.buf[1..])];
      if !a.cancelled {
        var _ := db.CreateMessage(a.ws, MessageRole(ev), ev.content);
        AddCost(a.ws, ev);
      }
      heard := heard + [(a.ws, ev)];
      if IsTerminalEvent(ev) {
        FinishTurn(a.ws, ev);
      }
    }

    /** The closed case: the status is read under the session's context. */
    method DrainEnd(aid: AdapterId)
      requires Valid() && Draining(State(), aid) && adapters[aid].buf == [] && adapters[aid].closed
      modifies this`sessions, this`adapters, db
      ensures Valid()
      ensures (db.State(), State()) == DrainClosed(old(db.State()), old(State()), aid)
      ensures adapters.Keys == old(adapters).Keys
      ensures O.EndsStream(old(db.State()), old(State()), db.State(), State(), aid)
      ensures Sound(old(db.State()), old(State()), db.State(), State(), None)
    {
      ClosedSound(db.State(), State(), aid);
      O.DrainClosedEndsStream(db.State(), State(), aid);
      var a := adapters[aid];
      var ws := db.GetWorkspace(a.ws);
      if !a.cancelled && ws.Some? && !IsTerminal(ws.value.status) {
        Fail(a.ws, "agent stream closed unexpectedly");
      }
      adapters := adapters[aid := a.(draining := false)];
      Cleanup(a.ws);
    }

    /** The drain's loop over the events of a stream: with a live context all that are buffered,
        with a cancelled one as many as its select prefers to the cancellation. */
    method DrainEvents(aid: AdapterId, takes: nat) returns (n: nat)
      requires Valid() && Draining(State(), aid)
      modifies this, db
      ensures Valid() && sessions == old(sessions) && adapters.Keys == old(adapters).Keys
      ensures n == (if old(adapters[aid].cancelled) then Least(takes, |old(adapters[aid].buf)|)
                    else |old(adapters[aid].buf)|)
      ensures adapters[aid] == old(adapters[aid]).(buf := old(adapters[aid].buf)[n..])
      ensures heard == old(heard) + HeardFrom(old(adapters[aid].ws), old(adapters[aid].buf)[..n])
      ensures db.State() ==
              HandleAll(old(db.State()), old(adapters[aid].ws), old(adapters[aid].buf)[..n],
                        old(adapters[aid].cancelled))
      ensures var a := old(adapters[aid]);
              !a.cancelled && a.ws in old(db.rows) ==> O.TellsAll(a.ws, a.buf, old(db.log), db.log)
    {
      ghost var a, was := adapters[aid], db.State();
      n := 0;
      while adapters[aid].buf != [] && !(adapters[aid].cancelled && n >= takes)
        invariant Valid() && sessions == old(sessions) && adapters.Keys == old(adapters).Keys && n <= |a.buf|
        invariant adapters[aid] == a.(buf := a.buf[n..])
        invariant heard == old(heard) + HeardFrom(a.ws, a.buf[..n])
        invariant a.cancelled ==> n <= takes
        invariant db.State() == HandleAll(was, a.ws, a.buf[..n], a.cancelled)
        decreases |adapters[aid].buf|
      {
        OneMoreHeard(was, a, n);
        DrainOne(aid);
        n := n + 1;
      }
      assert a.buf[..|a.buf|] == a.buf;
      if !a.cancelled && a.ws in was.rows {
        DrainTells(was, a.ws, a.buf);
      }
    }

    /** The drain of a stream that is over, closed or cancelled: its events in order, then the
        end of the stream, which is a failure only under a live context; then no session. */
    method Drain(aid: AdapterId, takes: nat)
      requires Valid() && Draining(State(), aid) && (adapters[aid].closed || adapters[aid].cancelled)
      modifies this, db
      ensures Valid() && aid in adapters && !adapters[aid].draining && old(adapters[aid].ws) !in sessions
      ensures var a := old(adapters[aid]);
              db.State() ==
              if a.cancelled then HandleAll(old(db.State()), a.ws, a.buf[..Least(takes, |a.buf|)], true)
              else MarkFailed(HandleAll(old(db.State()), a.ws, a.buf, false), a.ws, "agent stream closed unexpectedly")
    {
      ghost var buf := adapters[aid].buf;
      var _ := DrainEvents(aid, takes);
      assert buf[..|buf|] == buf;
      if adapters[aid].cancelled {
        var id := adapters[aid].ws;
        adapters := adapters[aid := adapters[aid].(draining := false)];
        Cleanup(id);
      } else {
        DrainEnd(aid);
      }
    }
  }

  /** workspace.Manager over the database and the repositories' refs. */
  class WorkspaceManager {
    const db: Database
    var git: Git

    constructor (db: Database, git: Git)
      ensures this.db == db && this.git == git
    {
      this.db, this.git := db, git;
    }

    /** WorktreeAdd: refuses an existing branch; `worktreeOk` is git's and the disk's answer. */
    method WorktreeAdd(repo: string, id: Id, base: string, worktreeOk: bool) returns (ok: bool)
      modifies this`git
      ensures ok == CanAddWorktree(old(git), repo, id, base, worktreeOk)
      ensures git ==
              if ok then old(git).(refs := old(git).refs[(repo, BranchName(id)) := old(git).refs[(repo, base)]])
              else old(git)
    {
      if (repo, BranchName(id)) in git.refs || !worktreeOk || (repo, base) !in git.refs {
        return false;
      }
      git := git.(refs := git.refs[(repo, BranchName(id)) := git.refs[(repo, base)]]);
      return true;
    }

    /** UpdateBranch: a commit on the branch's current tip, then the ref moves to it. */
    method UpdateBranch(repo: string, branch: string, id: Id, updateOk: bool) returns (ok: bool)
      modifies this`git
      ensures ok == ((repo, branch) in old(git).refs && updateOk)
      ensures git == if ok then AddCommit(old(git), repo, branch, Some(id)) else old(git)
    {
      if (repo, branch) !in git.refs || !updateOk {
        return false;
      }
      var parent, commit := git.refs[(repo, branch)], |git.commits|;
      git := git.(commits := git.commits + [Commit(Some(parent), Some(id))]);
      git := git.(refs := git.refs[(repo, branch) := commit]);
      return true;
    }

    method PrepareWorkspace(id: Id, worktreeOk: bool) returns (err: Error)
      modifies this`git, db
      ensures (db.State(), git, err) == Prepare(old(db.State()), old(git), id, worktreeOk)
      ensures O.Prepares(old(db.State()), old(git), db.State(), git, id, worktreeOk, err)
      ensures SoundGit(old(db.State()), old(git), db.State(), git)
    {
      PrepareSound(db.State(), git, id, worktreeOk);
      O.PreparePrepares(db.State(), git, id, worktreeOk);
      var ws := db.GetWorkspace(id);
      if ws.None? {
        return WorkspaceNotFound;
      }
      var proj := db.GetProject(ws.value.projectId);
      if proj.None? {
        return ProjectNotFound;
      }
      if !CanTransition(ws.value.status, Preparing) {
        return InvalidTransition;
      }
      var _ := db.UpdateWorkspace(id, StatusPatch(Preparing));
      var path := WorktreePathFor(git, proj.value.repoPath, id);
      var added := WorktreeAdd(proj.value.repoPath, id, proj.value.defaultBranch, worktreeOk);
      if !added {
        var _ := db.UpdateWorkspace(id, StatusPatch(Failed));
        return WorktreeAddFailed;
      }
      db.SetBranch(id, BranchName(id));
      var place := NO_CHANGE.(status := Some(Idle), worktreePath := Some(path),
                              targetRef := Some(proj.value.defaultBranch));
      var _ := db.UpdateWorkspace(id, place);
      return NoError;
    }

    method CancelWorkspace(id: Id) returns (err: Error)
      modifies db
      ensures (db.State(), err) == Cancel(old(db.State()), id)
      ensures O.Cancels(old(db.State()), db.State(), id, err)
      ensures SoundGit(old(db.State()), git, db.State(), git)
    {
      CancelSound(db.State(), git, id);
      O.CancelCancels(db.State(), id);
      var ws := db.GetWorkspace(id);
      if ws.None? {
        return WorkspaceNotFound;
      }
      if !CanTransition(ws.value.status, Cancelled) {
        return InvalidTransition;
      }
      var _ := db.UpdateWorkspace(id, StatusPatch(Cancelled));
      return NoError;
    }

    /** The conflict path of Merge: one more attempt is pending, or the workspace is stuck. */
    method RecordConflict(id: Id, ws: Workspace, target: string) returns (err: Error)
      requires id in db.rows && ws == db.rows[id]
      modifies db
      ensures (db.State(), err) == Conflicted(old(db.State()), id, target)
    {
      var attempt := 1;
      if ws.pendingMerge.Some? {
        attempt := ws.pendingMerge.value.attempt + 1;
      }
      if attempt > MAX_AUTO_MERGE_ATTEMPTS {
        if !CanTransition(ws.status, ConflictStuck) {
          return InvalidTransition;
        }
        var _ := db.UpdateWorkspace(id, NO_CHANGE.(status := Some(ConflictStuck), clearPendingMerge := true));
        return NoError;
      }
      var pending := PendingMerge(target, attempt, MAX_AUTO_MERGE_ATTEMPTS);
      var _ := db.UpdateWorkspace(id, NO_CHANGE.(pendingMerge := Some(pending)));
      return NoError;
    }

    method MergeWorkspace(id: Id, tree: MergeTree, updateOk: bool) returns (err: Error)
      modifies this`git, db
      ensures (db.State(), git, err) == Merge(old(db.State()), old(git), id, tree, updateOk)
      ensures O.Merges(old(db.State()), old(git), db.State(), git, id, tree, updateOk, err)
      ensures SoundGit(old(db.State()), old(git), db.State(), git)
    {
      MergeSound(db.State(), git, id, tree, updateOk);
      O.MergeMerges(db.State(), git, id, tree, updateOk);
      var ws := db.GetWorkspace(id);
      if ws.None? {
        return WorkspaceNotFound;
      }
      if ws.value.status != Completed && ws.value.status != ResolvingConflict {
        return InvalidTransition;
      }
      var proj := db.GetProject(ws.value.projectId);
      if proj.None? {
        return ProjectNotFound;
      }
      var target := ws.value.targetRef;
      if target == "" {
        target := proj.value.defaultBranch;
      }
      if tree.TreeError? {
        return MergeTreeFailed;
      }
      if tree.Clean? {
        var moved := UpdateBranch(proj.value.repoPath, target, id, updateOk);
        if !moved {
          return UpdateBranchFailed;
        }
        var _ := db.UpdateWorkspace(id, NO_CHANGE.(status := Some(Merged), clearPendingMerge := true));
        return NoError;
      }
      err := RecordConflict(id, ws.value, target);
    }
  }

  /** SweepOrphans over the rows its query returns, in the order the query returns them. */
  method SweepOrphans(db: Database, query: seq<Id>) returns (count: nat)
    requires O.AreOrphans(db.State(), query)
    modifies db
    ensures count == |query|
    ensures O.Sweeps(old(db.State()), db.State(), query)
    ensures forall id :: !O.IsOrphan(db.State(), id)
  {
    var ids: seq<Id> := [];
    for i := 0 to |query|
      invariant ids == query[..i]
    {
      ids := ids + [query[i]];
    }
    assert query[..|query|] == query;
    for i := 0 to |ids|
      invariant db.State() == SweepIds(old(db.State()), query[..i])
    {
      assert query[..i + 1][..i] == query[..i];
      var found := db.UpdateWorkspace(ids[i], FinalPatch(Failed, db.clock));
      if found {
        var _ := db.CreateMessage(ids[i], System, SWEEP_NOTE);
      }
    }
    SweepSweeps(old(db.State()), query);
    SweepLeavesNoOrphan(old(db.State()), query);
    return |ids|;
  }
}
