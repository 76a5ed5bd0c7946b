/** What the steps of model A that leave git alone do to the database: rows stay or change
    only in some columns, status writes are appended to the history and each is allowed, and
    sessions and adapters change as the call says (internal/agent/manager.go). */
module Lifecycle {
  import opened Wrappers
  import opened Status
  import opened WorkspaceRow
  import opened Events
  import opened World

  // ---- status history ----

  /** An edge of the table, or markFailed and the sweep forcing a live workspace to failed. */
  predicate Legal(write: StatusWrite) {
    CanTransition(write.from, write.to) || (write.to == Failed && !IsTerminal(write.from))
  }

  /** `turn` is the workspace whose drain is handling a turn_complete event, if any:
      its write to awaiting_input is the one write that is not guarded. */
  predicate Allowed(write: StatusWrite, turn: Option<Id>) {
    Legal(write) || (turn == Some(write.id) && write.to == AwaitingInput)
  }

  function LastWritten(writes: seq<StatusWrite>, id: Id): Status {
    if writes == [] then Queued
    else if writes[|writes| - 1].id == id then writes[|writes| - 1].to
    else LastWritten(writes[..|writes| - 1], id)
  }

  /** Each write starts from the status the previous write of that workspace left. */
  ghost predicate Chained(writes: seq<StatusWrite>) {
    forall i :: 0 <= i < |writes| ==> writes[i].from == LastWritten(writes[..i], writes[i].id)
  }

  /** The status columns are exactly what the history says, row by row. */
  ghost predicate HistoryOk(db: Db) {
    && Chained(db.writes)
    && (forall id :: id in db.rows ==> LastWritten(db.writes, id) == db.rows[id].status)
    && (forall i :: 0 <= i < |db.writes| ==> db.writes[i].id in db.issued)
    && db.rows.Keys <= db.issued
  }

  ghost predicate WritesGrow(db: Db, db': Db, turn: Option<Id>) {
    && |db.writes| <= |db'.writes|
    && db'.writes[..|db.writes|] == db.writes
    && (forall i :: |db.writes| <= i < |db'.writes| ==> Allowed(db'.writes[i], turn))
    && (HistoryOk(db) ==> HistoryOk(db'))
  }

  lemma AppendWrite(writes: seq<StatusWrite>, write: StatusWrite, id: Id)
    ensures LastWritten(writes + [write], id) == if write.id == id then write.to else LastWritten(writes, id)
  {
    assert (writes + [write])[..|writes|] == writes;
  }

  lemma UpdateWrites(db: Db, id: Id, p: Patch, turn: Option<Id>)
    requires id in db.rows && p.status.Some? ==> Allowed(StatusWrite(id, db.rows[id].status, p.status.value), turn)
    ensures WritesGrow(db, Update(db, id, p), turn)
  {
    if id in db.rows && p.status.Some? {
      var write := StatusWrite(id, db.rows[id].status, p.status.value);
      var db' := Update(db, id, p);
      assert db'.writes == db.writes + [write];
      if HistoryOk(db) {
        forall i | 0 <= i < |db'.writes| ensures db'.writes[i].from == LastWritten(db'.writes[..i], db'.writes[i].id) {
          assert i < |db.writes| ==> db'.writes[i] == db.writes[i];
          assert db'.writes[..i] == db.writes[..i];
        }
        forall other | other in db'.rows ensures LastWritten(db'.writes, other) == db'.rows[other].status {
          AppendWrite(db.writes, write, other);
        }
      }
    } else if id in db.rows {
      assert Update(db, id, p).writes == db.writes;
    }
  }

  // ---- rows ----

  /** The status is one the code can reach; a pending merge is within its attempt
      limit and gone once the merge is settled. */
  predicate RowOk(ws: Workspace) {
    && ws.status != ResolvingConflict && ws.status != AwaitingApproval
    && (ws.pendingMerge.Some? ==>
          1 <= ws.pendingMerge.value.attempt <= MAX_AUTO_MERGE_ATTEMPTS
          && ws.pendingMerge.value.maxAttempts == MAX_AUTO_MERGE_ATTEMPTS)
    && (ws.status == Merged || ws.status == ConflictStuck ==> ws.pendingMerge == None)
  }

  predicate SamePlace(a: Workspace, b: Workspace) {
    a.projectId == b.projectId && a.branch == b.branch && a.worktreePath == b.worktreePath && a.targetRef == b.targetRef
  }

  predicate RowEvolves(a: Workspace, b: Workspace) {
    && SamePlace(a, b) && a.pendingMerge == b.pendingMerge
    && (InSetup(b.status) ==> InSetup(a.status)) && (b.status == Idle ==> a.status == Idle)
    && (RowOk(a) ==> RowOk(b))
  }

  function MergedWrites(writes: seq<StatusWrite>): seq<Id> {
    if writes == [] then []
    else
      var last := writes[|writes| - 1];
      MergedWrites(writes[..|writes| - 1]) + if last.to == Merged then [last.id] else []
  }

  /** What every database change outside Prepare and Merge amounts to. */
  ghost predicate Evolves(db: Db, db': Db, turn: Option<Id>) {
    && db'.projects == db.projects && db'.issued == db.issued && db'.rows.Keys == db.rows.Keys
    && (forall id :: id in db.rows ==> RowEvolves(db.rows[id], db'.rows[id]))
    && WritesGrow(db, db', turn)
    && MergedWrites(db'.writes) == MergedWrites(db.writes)
  }

  lemma EvolvesTransitively(a: Db, b: Db, c: Db, turn: Option<Id>)
    requires Evolves(a, b, turn) && Evolves(b, c, turn)
    ensures Evolves(a, c, turn)
  {
    assert c.writes[..|a.writes|] == c.writes[..|b.writes|][..|a.writes|];
    forall i | |a.writes| <= i < |c.writes| ensures Allowed(c.writes[i], turn) {
      if i < |b.writes| {
        assert c.writes[i] == c.writes[..|b.writes|][i];
      }
    }
  }

  lemma UpdateEvolves(db: Db, id: Id, p: Patch, turn: Option<Id>)
    requires p.worktreePath.None? && p.targetRef.None?
    requires id in db.rows && p.status.Some? ==>
      && Allowed(StatusWrite(id, db.rows[id].status, p.status.value), turn)
      && p.status.value != Merged
    requires id in db.rows ==> RowEvolves(db.rows[id], Applied(p, db.rows[id], db.clock))
    ensures Evolves(db, Update(db, id, p), turn)
  {
    UpdateWrites(db, id, p, turn);
    if id in db.rows && p.status.Some? {
      var write := StatusWrite(id, db.rows[id].status, p.status.value);
      assert (db.writes + [write])[..|db.writes|] == db.writes;
    } else if id in db.rows {
      assert Update(db, id, p).writes == db.writes;
    }
  }

  lemma MessageEvolves(db: Db, id: Id, role: Role, content: string, turn: Option<Id>)
    ensures Evolves(db, AddMessage(db, id, role, content), turn)
  {
  }

  lemma MarkFailedEvolves(db: Db, id: Id, cause: string, turn: Option<Id>)
    ensures Evolves(db, MarkFailed(db, id, cause), turn)
  {
    if id in db.rows && !IsTerminal(db.rows[id].status) {
      var failed := Update(db, id, FinalPatch(Failed, db.clock));
      UpdateEvolves(db, id, FinalPatch(Failed, db.clock), turn);
      MessageEvolves(failed, id, System, "Workspace failed: " + cause, turn);
      EvolvesTransitively(db, failed, MarkFailed(db, id, cause), turn);
    }
  }

  /** The workspace whose drain is completing a turn in this action. */
  function Turn(w: World, a: Action): Option<Id> {
    if a.TakeEvent? && Draining(w.agents, a.aid) && w.agents.adapters[a.aid].buf != []
       && IsTerminalEvent(w.agents.adapters[a.aid].buf[0])
       && DoneReasonOf(w.agents.adapters[a.aid].buf[0]).TurnComplete?
    then Some(w.agents.adapters[a.aid].ws)
    else None
  }

  /** A change followed by markFailed, or by one more message, is still such a change. */
  lemma ThenMarkFailed(a: Db, b: Db, id: Id, cause: string, turn: Option<Id>)
    requires Evolves(a, b, turn)
    ensures Evolves(a, MarkFailed(b, id, cause), turn)
  {
    MarkFailedEvolves(b, id, cause, turn);
    EvolvesTransitively(a, b, MarkFailed(b, id, cause), turn);
  }

  lemma ThenMessage(a: Db, b: Db, id: Id, role: Role, content: string, turn: Option<Id>)
    requires Evolves(a, b, turn)
    ensures Evolves(a, AddMessage(b, id, role, content), turn)
  {
    MessageEvolves(b, id, role, content, turn);
    EvolvesTransitively(a, b, AddMessage(b, id, role, content), turn);
  }

  lemma NothingEvolves(db: Db, turn: Option<Id>)
    ensures Evolves(db, db, turn)
  {
  }

  function StartedRow(db: Db, id: Id): Db {
    Update(db, id, NO_CHANGE.(status := Some(Running), startedAt := Some(db.clock)))
  }

  /** The five databases a Start can leave. */
  lemma StartLeaves(db: Db, ag: Agents, id: Id, aid: AdapterId, prompt: string, f: bool, s: bool, p: bool)
    ensures var out := Start(db, ag, id, aid, prompt, f, s, p).0;
            || out == db
            || out == MarkFailed(db, id, "spawn")
            || (&& id in db.rows && CanTransition(db.rows[id].status, Running)
                && (|| out == StartedRow(db, id)
                    || out == MarkFailed(StartedRow(db, id), id, "initial prompt")
                    || out == AddMessage(StartedRow(db, id), id, User, prompt)))
  {
  }

  lemma StartEvolves(db: Db, ag: Agents, id: Id, aid: AdapterId, prompt: string, f: bool, s: bool, p: bool)
    ensures Evolves(db, Start(db, ag, id, aid, prompt, f, s, p).0, None)
  {
    StartLeaves(db, ag, id, aid, prompt, f, s, p);
    NothingEvolves(db, None);
    MarkFailedEvolves(db, id, "spawn", None);
    if id in db.rows && CanTransition(db.rows[id].status, Running) {
      UpdateEvolves(db, id, NO_CHANGE.(status := Some(Running), startedAt := Some(db.clock)), None);
      ThenMarkFailed(db, StartedRow(db, id), id, "initial prompt", None);
      ThenMessage(db, StartedRow(db, id), id, User, prompt, None);
    }
  }

  lemma PromptEvolves(db: Db, ag: Agents, id: Id, prompt: string, ok: bool)
    ensures Evolves(db, SendPrompt(db, ag, id, prompt, ok).0, None)
  {
    if id in db.rows && CanTransition(db.rows[id].status, Running) {
      UpdateEvolves(db, id, StatusPatch(Running), None);
      ThenMarkFailed(db, Update(db, id, StatusPatch(Running)), id, "send prompt", None);
      ThenMessage(db, Update(db, id, StatusPatch(Running)), id, User, prompt, None);
    }
  }

  lemma CancelEvolves(db: Db, id: Id)
    ensures Evolves(db, Cancel(db, id).0, None)
  {
    NothingEvolves(db, None);
    if id in db.rows && CanTransition(db.rows[id].status, Cancelled) {
      UpdateEvolves(db, id, StatusPatch(Cancelled), None);
    }
  }

  lemma StopEvolves(db: Db, id: Id)
    ensures Evolves(db, CancelIfLive(db, id), None)
  {
    NothingEvolves(db, None);
    if id in db.rows && CanTransition(db.rows[id].status, Cancelled) {
      UpdateEvolves(db, id, FinalPatch(Cancelled, db.clock), None);
    }
  }

  lemma CompleteEvolves(db: Db, id: Id)
    ensures Evolves(db, Complete(db, id).0, None)
  {
    if id in db.rows && CanTransition(db.rows[id].status, Completed) {
      UpdateEvolves(db, id, FinalPatch(Completed, db.clock), None);
    }
  }

  lemma EventEvolves(db: Db, id: Id, ev: AgentEvent, cancelled: bool, turn: Option<Id>)
    requires IsTerminalEvent(ev) && DoneReasonOf(ev).TurnComplete? ==> turn == Some(id)
    ensures Evolves(db, HandleEvent(db, id, ev, cancelled), turn)
  {
    var logged := AddMessage(db, id, MessageRole(ev), ev.content);
    var handled := if cancelled then db else ApplyCost(logged, id, ev);
    MessageEvolves(db, id, MessageRole(ev), ev.content, turn);
    CostEvolves(logged, id, ev, turn);
    EvolvesTransitively(db, logged, ApplyCost(logged, id, ev), turn);
    assert Evolves(db, db, turn);
    if IsTerminalEvent(ev) {
      TerminalEvolves(handled, id, ev, turn);
      EvolvesTransitively(db, handled, HandleTerminal(handled, id, ev), turn);
    }
  }

  lemma CostEvolves(db: Db, id: Id, ev: AgentEvent, turn: Option<Id>)
    ensures Evolves(db, ApplyCost(db, id, ev), turn)
  {
    NothingEvolves(db, turn);
    if CostOf(ev).Some? && id in db.rows {
      UpdateEvolves(db, id, CostPatch(db.rows[id], CostOf(ev).value), turn);
    }
  }

  lemma TerminalEvolves(db: Db, id: Id, ev: AgentEvent, turn: Option<Id>)
    requires DoneReasonOf(ev).TurnComplete? ==> turn == Some(id)
    ensures Evolves(db, HandleTerminal(db, id, ev), turn)
  {
    match DoneReasonOf(ev)
    case TurnComplete => UpdateEvolves(db, id, StatusPatch(AwaitingInput), turn);
    case Stopped =>
    case ErrorReason => MarkFailedEvolves(db, id, "agent: error", turn);
    case ProcessExit => MarkFailedEvolves(db, id, "agent: process_exit", turn);
    case OtherReason(text) => MarkFailedEvolves(db, id, "agent: unknown reason " + text, turn);
  }

  lemma SweepOneEvolves(db: Db, id: Id)
    requires id in db.rows && !IsTerminal(db.rows[id].status)
    ensures Evolves(db, SweepOne(db, id), None)
  {
    UpdateEvolves(db, id, FinalPatch(Failed, db.clock), None);
    ThenMessage(db, Update(db, id, FinalPatch(Failed, db.clock)), id, System, SWEEP_NOTE, None);
  }

  lemma SweepOneTouches(db: Db, id: Id)
    requires id in db.rows
    ensures SweepOne(db, id).rows == db.rows[id := Applied(FinalPatch(Failed, db.clock), db.rows[id], db.clock)]
    ensures SweepOne(db, id).clock == db.clock
    ensures SweepOne(db, id).log == db.log + [LogEntry(id, System, SWEEP_NOTE)]
  {
  }

  function SweepNotes(ids: seq<Id>): seq<LogEntry> {
    seq(|ids|, i requires 0 <= i < |ids| => LogEntry(ids[i], System, SWEEP_NOTE))
  }

  lemma NotesAppend(ids: seq<Id>, id: Id)
    ensures SweepNotes(ids + [id]) == SweepNotes(ids) + [LogEntry(id, System, SWEEP_NOTE)]
  {
  }

  lemma {:induction false} SweepRow(db: Db, ids: seq<Id>, id: Id)
    requires forall i :: 0 <= i < |ids| ==> ids[i] in db.rows
    requires forall i, j :: 0 <= i < j < |ids| ==> ids[i] != ids[j]
    ensures SweepIds(db, ids).rows.Keys == db.rows.Keys && SweepIds(db, ids).clock == db.clock
    ensures id in db.rows ==>
      SweepIds(db, ids).rows[id] ==
      if id in ids then Applied(FinalPatch(Failed, db.clock), db.rows[id], db.clock) else db.rows[id]
  {
    if ids != [] {
      var rest, last := ids[..|ids| - 1], ids[|ids| - 1];
      SweepRow(db, rest, id);
      SweepOneTouches(SweepIds(db, rest), last);
      assert ids == rest + [last] && last !in rest;
    }
  }

  lemma {:induction false} SweepLog(db: Db, ids: seq<Id>)
    requires forall i :: 0 <= i < |ids| ==> ids[i] in db.rows
    requires forall i, j :: 0 <= i < j < |ids| ==> ids[i] != ids[j]
    ensures SweepIds(db, ids).log == db.log + SweepNotes(ids)
  {
    if ids != [] {
      var rest, last := ids[..|ids| - 1], ids[|ids| - 1];
      SweepLog(db, rest);
      SweepRow(db, rest, last);
      SweepOneTouches(SweepIds(db, rest), last);
      NotesAppend(rest, last);
      assert ids == rest + [last];
    }
  }

  /** The swept rows, in the query's order, and no others. */
  lemma SweepTouches(db: Db, ids: seq<Id>)
    requires forall i :: 0 <= i < |ids| ==> ids[i] in db.rows
    requires forall i, j :: 0 <= i < j < |ids| ==> ids[i] != ids[j]
    ensures SweepIds(db, ids).rows.Keys == db.rows.Keys && SweepIds(db, ids).clock == db.clock
    ensures forall id :: id in db.rows ==>
      SweepIds(db, ids).rows[id] ==
      if id in ids then Applied(FinalPatch(Failed, db.clock), db.rows[id], db.clock) else db.rows[id]
    ensures SweepIds(db, ids).log == db.log + SweepNotes(ids)
  {
    SweepLog(db, ids);
    SweepRow(db, ids, "");
    forall id | id in db.rows
      ensures SweepIds(db, ids).rows[id] ==
              if id in ids then Applied(FinalPatch(Failed, db.clock), db.rows[id], db.clock) else db.rows[id]
    {
      SweepRow(db, ids, id);
    }
  }

  lemma {:induction false} SweepEvolves(db: Db, ids: seq<Id>)
    requires forall i, j :: 0 <= i < j < |ids| ==> ids[i] != ids[j]
    requires forall i :: 0 <= i < |ids| ==> ids[i] in db.rows && !IsTerminal(db.rows[ids[i]].status)
    ensures Evolves(db, SweepIds(db, ids), None)
  {
    NothingEvolves(db, None);
    if ids != [] {
      var rest, last := ids[..|ids| - 1], ids[|ids| - 1];
      SweepEvolves(db, rest);
      SweepRow(db, rest, last);
      SweepOneEvolves(SweepIds(db, rest), last);
      EvolvesTransitively(db, SweepIds(db, rest), SweepOne(SweepIds(db, rest), last), None);
    }
  }
}
