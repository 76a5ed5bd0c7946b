/** What each call of the managers leaves: the columns of the row, the entries of the log,
    and the answer. */
module Outcomes {
  import opened Wrappers
  import opened Status
  import opened WorkspaceRow
  import opened Events
  import opened World

  /** One row is now this; the other rows, the projects and the clock are as before. */
  predicate RowIs(db: Db, db': Db, id: Id, row: Workspace) {
    db'.rows == db.rows[id := row] && db'.clock == db.clock && db'.projects == db.projects && db'.issued == db.issued
  }

  predicate RowOnly(db: Db, db': Db, id: Id, row: Workspace) {
    RowIs(db, db', id, row) && db'.log == db.log
  }

  predicate RowAndNote(db: Db, db': Db, id: Id, row: Workspace, role: Role, text: string) {
    RowIs(db, db', id, row) && db'.log == db.log + [LogEntry(id, role, text)]
  }

  // ---- markFailed ----

  /** A live workspace fails, and its log says why; nothing happens to any other. */
  predicate Fails(db: Db, db': Db, id: Id, cause: string) {
    if id in db.rows && db.rows[id].status !in {Merged, Failed, Cancelled, ConflictStuck} then
      RowAndNote(db, db', id,
                 db.rows[id].(status := Failed, completedAt := Some(db.clock), updatedAt := db.clock), System,
                 "Workspace failed: " + cause)
    else db' == db
  }

  lemma MarkFailedFails(db: Db, id: Id, cause: string)
    ensures Fails(db, MarkFailed(db, id, cause), id, cause)
  {
  }

  /** A row that was changed and then failed. */
  lemma FailsAfter(db: Db, mid: Db, db': Db, id: Id, row: Workspace, cause: string)
    requires id in db.rows && RowOnly(db, mid, id, row) && Fails(mid, db', id, cause)
    requires row.status !in {Merged, Failed, Cancelled, ConflictStuck}
    ensures RowAndNote(db, db', id, row.(status := Failed, completedAt := Some(db.clock), updatedAt := db.clock),
                       System, "Workspace failed: " + cause)
  {
  }

  // ---- calls on the status ----

  predicate Completes(db: Db, db': Db, id: Id, err: Error) {
    && (err == NoError <==>
          id in db.rows && db.rows[id].status in {Completed, Idle, AwaitingInput, ResolvingConflict})
    && (err == WorkspaceNotFound <==> id !in db.rows)
    && (err in {NoError, WorkspaceNotFound, InvalidTransition})
    && (err == NoError && db.rows[id].status != Completed ==>
          RowOnly(db, db', id,
                  db.rows[id].(status := Completed, completedAt := Some(db.clock), updatedAt := db.clock)))
    && (err != NoError || db.rows[id].status == Completed ==> db' == db)
  }

  lemma CompleteCompletes(db: Db, id: Id)
    ensures Completes(db, Complete(db, id).0, id, Complete(db, id).1)
  {
  }

  predicate Cancels(db: Db, db': Db, id: Id, err: Error) {
    && (err == NoError <==>
          id in db.rows && db.rows[id].status in
            {Queued, Preparing, Idle, Running, AwaitingInput, Completed, ResolvingConflict})
    && (err == WorkspaceNotFound <==> id !in db.rows)
    && (err in {NoError, WorkspaceNotFound, InvalidTransition})
    && (err == NoError ==> RowOnly(db, db', id, db.rows[id].(status := Cancelled, updatedAt := db.clock)))
    && (err != NoError ==> db' == db)
  }

  lemma CancelCancels(db: Db, id: Id)
    ensures Cancels(db, Cancel(db, id).0, id, Cancel(db, id).1)
  {
  }

  // ---- SendPrompt, Start and Stop ----

  predicate Prompts(db: Db, ag: Agents, db': Db, id: Id, prompt: string, ok: bool, err: Error) {
    && (err == NotActive <==> id !in ag.sessions)
    && (err == WorkspaceNotFound <==> id in ag.sessions && id !in db.rows)
    && (err == InvalidTransition <==>
          id in ag.sessions && id in db.rows && db.rows[id].status !in {Idle, AwaitingInput})
    && (err in {NotActive, WorkspaceNotFound, InvalidTransition, PromptFailed, NoError})
    && (err == NoError ==>
          ok && RowAndNote(db, db', id, db.rows[id].(status := Running, updatedAt := db.clock), User, prompt))
    && (err == PromptFailed ==> !ok && Fails(db, db', id, "send prompt"))
    && (err !in {NoError, PromptFailed} ==> db' == db)
  }

  lemma SendPromptPrompts(db: Db, ag: Agents, id: Id, prompt: string, ok: bool)
    ensures var r := SendPrompt(db, ag, id, prompt, ok); Prompts(db, ag, r.0, id, prompt, ok, r.1)
  {
    if id in ag.sessions && id in db.rows && CanTransition(db.rows[id].status, Running) {
      PromptedRow(db, id, prompt, ok);
    }
  }

  /** The rows of a prompt that got past the guard. */
  lemma PromptedRow(db: Db, id: Id, prompt: string, ok: bool)
    requires id in db.rows && db.rows[id].status in {Idle, AwaitingInput}
    ensures var running := Update(db, id, StatusPatch(Running));
            if ok then RowAndNote(db, AddMessage(running, id, User, prompt), id,
                                  db.rows[id].(status := Running, updatedAt := db.clock), User, prompt)
            else Fails(db, MarkFailed(running, id, "send prompt"), id, "send prompt")
  {
    var running := Update(db, id, StatusPatch(Running));
    var row := db.rows[id].(status := Running, updatedAt := db.clock);
    assert RowOnly(db, running, id, row);
    if !ok {
      MarkFailedFails(running, id, "send prompt");
      FailsAfter(db, running, MarkFailed(running, id, "send prompt"), id, row, "send prompt");
    }
  }

  /** The answers of Start, in the order of its checks. */
  predicate StartAnswers(db: Db, ag: Agents, id: Id, factoryOk: bool, spawnOk: bool, promptOk: bool, err: Error) {
    && (err == WorkspaceNotFound <==> id !in db.rows)
    && (id in db.rows ==>
          && (err == InvalidTransition <==> db.rows[id].status !in {Idle, AwaitingInput})
          && (db.rows[id].status in {Idle, AwaitingInput} ==>
                && (err == NoWorktree <==> db.rows[id].worktreePath == "")
                && (db.rows[id].worktreePath != "" ==>
                      && (err == FactoryFailed <==> !factoryOk)
                      && (err == SpawnFailed <==> factoryOk && !spawnOk)
                      && (err == AlreadyActive <==> factoryOk && spawnOk && id in ag.sessions)
                      && (err == PromptFailed <==> factoryOk && spawnOk && id !in ag.sessions && !promptOk)
                      && (err == NoError <==> factoryOk && spawnOk && id !in ag.sessions && promptOk))))
  }

  /** What each answer leaves in the tables. */
  predicate StartRows(db: Db, db': Db, id: Id, prompt: string, err: Error) {
    if err == SpawnFailed then Fails(db, db', id, "spawn")
    else if err in {AlreadyActive, PromptFailed, NoError} then
      && id in db.rows
      && var running := db.rows[id].(status := Running, startedAt := Some(db.clock), updatedAt := db.clock);
         if err == AlreadyActive then RowOnly(db, db', id, running)
         else if err == PromptFailed then
           RowAndNote(db, db', id, running.(status := Failed, completedAt := Some(db.clock)), System,
                      "Workspace failed: " + "initial prompt")
         else RowAndNote(db, db', id, running, User, prompt)
    else db' == db
  }

  /** And among the sessions: a new one, drained, only without an error. */
  predicate StartSessions(ag: Agents, ag': Agents, id: Id, aid: AdapterId, err: Error) {
    if err == NoError then
      && ag'.sessions == ag.sessions[id := aid]
      && ag'.adapters == ag.adapters[aid := Adapter(id, [], false, false, true)]
    else if err == PromptFailed then
      ag'.sessions == ag.sessions && ag'.adapters == ag.adapters[aid := Adapter(id, [], false, true, false)]
    else if err == AlreadyActive then
      && ag'.sessions == ag.sessions && id in ag.sessions
      && (ag.sessions[id] in ag.adapters && ag.sessions[id] != aid ==>
            ag'.adapters == ag.adapters[aid := Adapter(id, [], false, true, false)]
                                       [ag.sessions[id] := ag.adapters[ag.sessions[id]].(closed := true)])
    else ag' == ag
  }

  lemma StartStarts(db: Db, ag: Agents, id: Id, aid: AdapterId, prompt: string, f: bool, s: bool, p: bool)
    ensures var r := Start(db, ag, id, aid, prompt, f, s, p);
            StartAnswers(db, ag, id, f, s, p, r.2) && StartRows(db, r.0, id, prompt, r.2)
            && StartSessions(ag, r.1, id, aid, r.2)
  {
    StartGivesAnswer(db, ag, id, aid, prompt, f, s, p);
    StartLeavesRows(db, ag, id, aid, prompt, f, s, p);
    StartLeavesSessions(db, ag, id, aid, prompt, f, s, p);
  }

  lemma StartGivesAnswer(db: Db, ag: Agents, id: Id, aid: AdapterId, prompt: string, f: bool, s: bool, p: bool)
    ensures StartAnswers(db, ag, id, f, s, p, Start(db, ag, id, aid, prompt, f, s, p).2)
  {
  }

  lemma StartLeavesRows(db: Db, ag: Agents, id: Id, aid: AdapterId, prompt: string, f: bool, s: bool, p: bool)
    ensures var r := Start(db, ag, id, aid, prompt, f, s, p); StartRows(db, r.0, id, prompt, r.2)
  {
    var r := Start(db, ag, id, aid, prompt, f, s, p);
    if r.2 == SpawnFailed {
      MarkFailedFails(db, id, "spawn");
    } else if r.2 == PromptFailed {
      StartedRows(db, id, prompt);
    } else if r.2 == NoError || r.2 == AlreadyActive {
      StartedRows(db, id, prompt);
    }
  }

  /** The rows of a Start that got past its guards and the spawn. */
  lemma StartedRows(db: Db, id: Id, prompt: string)
    requires id in db.rows
    ensures var out := Update(db, id, NO_CHANGE.(status := Some(Running), startedAt := Some(db.clock)));
            var row := db.rows[id].(status := Running, startedAt := Some(db.clock), updatedAt := db.clock);
            && RowOnly(db, out, id, row)
            && RowAndNote(db, AddMessage(out, id, User, prompt), id, row, User, prompt)
            && RowAndNote(db, MarkFailed(out, id, "initial prompt"), id,
                          row.(status := Failed, completedAt := Some(db.clock)), System,
                          "Workspace failed: " + "initial prompt")
  {
    var out := Update(db, id, NO_CHANGE.(status := Some(Running), startedAt := Some(db.clock)));
    var row := db.rows[id].(status := Running, startedAt := Some(db.clock), updatedAt := db.clock);
    MarkFailedFails(out, id, "initial prompt");
    FailsAfter(db, out, MarkFailed(out, id, "initial prompt"), id, row, "initial prompt");
  }

  lemma StartLeavesSessions(db: Db, ag: Agents, id: Id, aid: AdapterId, prompt: string, f: bool, s: bool, p: bool)
    ensures var r := Start(db, ag, id, aid, prompt, f, s, p); StartSessions(ag, r.1, id, aid, r.2)
  {
    if id !in ag.sessions {
      assert ag.sessions[id := aid] - {id} == ag.sessions;
      var adapters := ag.adapters[aid := Adapter(id, [], false, false, p)];
      assert adapters[aid := Adapter(id, [], false, true, p)] == ag.adapters[aid := Adapter(id, [], false, true, p)];
    }
  }

  /** With a session: its context is cancelled, its channel closed, and it is forgotten; a
      workspace that can still be cancelled is. Without one: nothing. */
  predicate Stops(db: Db, ag: Agents, db': Db, ag': Agents, id: Id) {
    if id !in ag.sessions then db' == db && ag' == ag
    else CancelsLive(db, db', id) && ForgetsStopped(ag, ag', id)
  }

  predicate CancelsLive(db: Db, db': Db, id: Id) {
    if id in db.rows && db.rows[id].status in
         {Queued, Preparing, Idle, Running, AwaitingInput, Completed, ResolvingConflict}
    then RowOnly(db, db', id,
                 db.rows[id].(status := Cancelled, completedAt := Some(db.clock), updatedAt := db.clock))
    else db' == db
  }

  predicate ForgetsStopped(ag: Agents, ag': Agents, id: Id)
    requires id in ag.sessions
  {
    && ag'.sessions == ag.sessions - {id}
    && (ag.sessions[id] in ag.adapters ==>
          ag'.adapters ==
          ag.adapters[ag.sessions[id] := ag.adapters[ag.sessions[id]].(closed := true, cancelled := true)])
  }

  lemma CancelIfLiveCancels(db: Db, id: Id)
    ensures CancelsLive(db, CancelIfLive(db, id), id)
  {
  }

  lemma StopForgets(db: Db, ag: Agents, id: Id)
    requires id in ag.sessions
    ensures ForgetsStopped(ag, Stop(db, ag, id).1, id)
  {
  }

  lemma StopStops(db: Db, ag: Agents, id: Id)
    ensures var r := Stop(db, ag, id); Stops(db, ag, r.0, r.1, id)
  {
    if id in ag.sessions {
      CancelIfLiveCancels(db, id);
      StopForgets(db, ag, id);
    }
  }

  // ---- the drain ----

  /** The role a message of this kind is stored under. */
  predicate SpeaksAs(kind: EventType, role: Role) {
    && (role == Assistant <==> kind == EventText || kind == EventReasoning || kind == EventApproval)
    && (role == Tool <==> kind == EventToolCall || kind == EventToolResult || kind == EventFileChange)
    && role != User
  }

  /** The text of a done event's reason, if it has one. */
  function ReasonText(ev: AgentEvent): Option<string> {
    if "reason" in ev.metadata && ev.metadata["reason"].Str? then Some(ev.metadata["reason"].s) else None
  }

  /** Why a done event fails its workspace, if it does. */
  predicate FailsFor(ev: AgentEvent, cause: string) {
    match ReasonText(ev)
    case None => cause == "agent: process_exit"
    case Some(reason) =>
      if reason == "error" then cause == "agent: error"
      else if reason == "process_exit" then cause == "agent: process_exit"
      else reason != "turn_complete" && reason != "stopped" && cause == "agent: unknown reason " + reason
  }

  /** What a done event does to its workspace. */
  ghost predicate EndsTurn(db: Db, db': Db, id: Id, ev: AgentEvent) {
    match ReasonText(ev)
    case Some("turn_complete") =>
      if id in db.rows then RowOnly(db, db', id, db.rows[id].(status := AwaitingInput, updatedAt := db.clock))
      else db' == db
    case Some("stopped") => db' == db
    case _ => exists cause :: FailsFor(ev, cause) && Fails(db, db', id, cause)
  }

  lemma FailedTurn(db: Db, id: Id, ev: AgentEvent, cause: string)
    requires FailsFor(ev, cause)
    ensures EndsTurn(db, MarkFailed(db, id, cause), id, ev)
  {
    MarkFailedFails(db, id, cause);
  }

  lemma TerminalEndsTurn(db: Db, id: Id, ev: AgentEvent)
    requires ev.kind == EventDone
    ensures EndsTurn(db, HandleTerminal(db, id, ev), id, ev)
  {
    match DoneReasonOf(ev)
    case TurnComplete =>
    case Stopped =>
    case ErrorReason => FailedTurn(db, id, ev, "agent: error");
    case ProcessExit => FailedTurn(db, id, ev, "agent: process_exit");
    case OtherReason(text) => FailedTurn(db, id, ev, "agent: unknown reason " + text);
  }

  /** A whole number from a metadata entry: a floating one loses its fraction, towards zero,
      and anything else that is no number counts as nothing. */
  predicate ReadsAs(metadata: map<string, Meta>, key: string, n: int) {
    if key !in metadata || metadata[key].Str? || metadata[key].Flag? then n == 0
    else match metadata[key]
      case Whole(m) => n == m
      case Floating(r) => Toward(r, n)
      case Single(r) => Toward(r, n)
      case _ => n == 0
  }

  predicate Toward(r: real, n: int) {
    if r >= 0.0 then n as real <= r < n as real + 1.0 else n as real - 1.0 < r <= n as real
  }

  /** The total after adding n, in 64 bits. */
  predicate SumsTo(before: int, n: int, after: int) {
    -0x8000_0000_0000_0000 <= after < 0x8000_0000_0000_0000 && (after - (before + n)) % 0x1_0000_0000_0000_0000 == 0
  }

  /** The three totals of the row take a cost event's numbers; nothing else does. */
  ghost predicate Counts(db: Db, db': Db, id: Id, ev: AgentEvent) {
    if ev.kind != EventCost || id !in db.rows then db' == db
    else
      && id in db'.rows
      && var was, now := db.rows[id], db'.rows[id];
         && RowOnly(db, db', id, was.(tokensIn := now.tokensIn, tokensOut := now.tokensOut, costUsd := now.costUsd,
                                      updatedAt := db.clock))
         && (exists n :: ReadsAs(ev.metadata, "tokens_in", n) && SumsTo(was.tokensIn, n, now.tokensIn))
         && (exists n :: ReadsAs(ev.metadata, "tokens_out", n) && SumsTo(was.tokensOut, n, now.tokensOut))
         && now.costUsd == was.costUsd + if "cost_usd" in ev.metadata && ev.metadata["cost_usd"].Floating?
                                         then ev.metadata["cost_usd"].r else 0.0
  }

  lemma ReadsNumber(metadata: map<string, Meta>, key: string)
    ensures ReadsAs(metadata, key, Int64FromAny(metadata, key))
  {
  }

  lemma WrapSums(before: int, n: int)
    ensures SumsTo(before, n, Wrap64(before + n))
  {
  }

  lemma ApplyCostCounts(db: Db, id: Id, ev: AgentEvent)
    ensures Counts(db, ApplyCost(db, id, ev), id, ev)
  {
    if CostOf(ev).Some? && id in db.rows {
      ReadsNumber(ev.metadata, "tokens_in");
      ReadsNumber(ev.metadata, "tokens_out");
      WrapSums(db.rows[id].tokensIn, CostOf(ev).value.tokensIn);
      WrapSums(db.rows[id].tokensOut, CostOf(ev).value.tokensOut);
    }
  }

  /** One event taken under a live context: it is stored first, under its own role; then it is
      counted, and a done event ends the turn. */
  ghost predicate Takes(db: Db, db': Db, id: Id, ev: AgentEvent) {
    exists stored, counted ::
      Stores(db, stored, id, ev) && Counts(stored, counted, id, ev) && Finishes(counted, db', id, ev)
  }

  ghost predicate Stores(db: Db, db': Db, id: Id, ev: AgentEvent) {
    if id in db.rows then
      exists role :: SpeaksAs(ev.kind, role) && db' == db.(log := db.log + [LogEntry(id, role, ev.content)])
    else db' == db
  }

  ghost predicate Finishes(db: Db, db': Db, id: Id, ev: AgentEvent) {
    if ev.kind == EventDone then EndsTurn(db, db', id, ev) else db' == db
  }

  lemma MessageStores(db: Db, id: Id, ev: AgentEvent)
    ensures Stores(db, AddMessage(db, id, MessageRole(ev), ev.content), id, ev)
  {
    assert SpeaksAs(ev.kind, MessageRole(ev));
  }

  lemma LiveEventTakes(db: Db, id: Id, ev: AgentEvent)
    ensures Takes(db, HandleEvent(db, id, ev, false), id, ev)
  {
    var stored := AddMessage(db, id, MessageRole(ev), ev.content);
    MessageStores(db, id, ev);
    ApplyCostCounts(stored, id, ev);
    if ev.kind == EventDone {
      TerminalEndsTurn(ApplyCost(stored, id, ev), id, ev);
    }
  }

  /** Under a cancelled context only a done event does anything. */
  lemma CancelledEventTakes(db: Db, id: Id, ev: AgentEvent)
    ensures var db' := HandleEvent(db, id, ev, true);
            Finishes(db, db', id, ev)
  {
    if ev.kind == EventDone {
      TerminalEndsTurn(db, id, ev);
    }
  }

  // ---- the log of a stream ----

  /** What one event leaves in the log: its own entry, and then the notice of a failure. */
  ghost predicate Tells(id: Id, ev: AgentEvent, entries: seq<LogEntry>) {
    && 1 <= |entries| <= 2
    && entries[0].workspaceId == id && SpeaksAs(ev.kind, entries[0].role) && entries[0].content == ev.content
    && (|entries| == 2 ==>
          && ev.kind == EventDone
          && exists cause :: FailsFor(ev, cause) && entries[1] == LogEntry(id, System, "Workspace failed: " + cause))
  }

  lemma EndsTurnTells(db: Db, db': Db, id: Id, ev: AgentEvent)
    requires id in db.rows && EndsTurn(db, db', id, ev)
    ensures db'.rows.Keys == db.rows.Keys
    ensures db'.log == db.log
            || exists cause :: FailsFor(ev, cause)
                 && db'.log == db.log + [LogEntry(id, System, "Workspace failed: " + cause)]
  {
  }

  lemma TakesTells(db: Db, db': Db, id: Id, ev: AgentEvent) returns (entries: seq<LogEntry>)
    requires id in db.rows && Takes(db, db', id, ev)
    ensures id in db'.rows && db'.log == db.log + entries && Tells(id, ev, entries)
  {
    var stored, counted :|
      Stores(db, stored, id, ev) && Counts(stored, counted, id, ev) && Finishes(counted, db', id, ev);
    var role :| SpeaksAs(ev.kind, role) && stored == db.(log := db.log + [LogEntry(id, role, ev.content)]);
    entries := FinishesTells(counted, db', id, ev, LogEntry(id, role, ev.content), db.log);
  }

  lemma FinishesTells(db: Db, db': Db, id: Id, ev: AgentEvent, own: LogEntry, log: seq<LogEntry>)
    returns (entries: seq<LogEntry>)
    requires id in db.rows && Finishes(db, db', id, ev) && db.log == log + [own]
    requires own.workspaceId == id && SpeaksAs(ev.kind, own.role) && own.content == ev.content
    ensures id in db'.rows && db'.log == log + entries && Tells(id, ev, entries)
  {
    entries := [own];
    if ev.kind == EventDone {
      EndsTurnTells(db, db', id, ev);
      if db'.log != db.log {
        var cause :| FailsFor(ev, cause) && db'.log == db.log + [LogEntry(id, System, "Workspace failed: " + cause)];
        entries := [own] + [LogEntry(id, System, "Workspace failed: " + cause)];
        assert log + [own] + [LogEntry(id, System, "Workspace failed: " + cause)] == log + entries;
      }
    }
  }

  /** The log has grown by what each event leaves, in their order. */
  ghost predicate TellsAll(id: Id, evs: seq<AgentEvent>, log: seq<LogEntry>, log': seq<LogEntry>) {
    if evs == [] then log' == log
    else exists mid, entries ::
      && TellsAll(id, evs[..|evs| - 1], log, mid) && Tells(id, evs[|evs| - 1], entries)
      && log' == mid + entries
  }

  /** The end of a stream: its drain stops, the workspace's session is forgotten and cancelled,
      and a live workspace fails unless the context was cancelled. */
  predicate EndsStream(db: Db, ag: Agents, db': Db, ag': Agents, aid: AdapterId)
    requires aid in ag.adapters && ag'.adapters.Keys == ag.adapters.Keys
  {
    var id := ag.adapters[aid].ws;
    && !ag'.adapters[aid].draining && ag'.sessions == ag.sessions - {id}
    && (if ag.adapters[aid].cancelled then db' == db
        else Fails(db, db', id, "agent stream closed unexpectedly"))
    && (id in ag.sessions && ag.sessions[id] in ag.adapters ==> ag'.adapters[ag.sessions[id]].cancelled)
  }

  lemma DrainClosedEndsStream(db: Db, ag: Agents, aid: AdapterId)
    requires Draining(ag, aid)
    ensures var r := DrainClosed(db, ag, aid);
            ag.adapters.Keys == r.1.adapters.Keys && EndsStream(db, ag, r.0, r.1, aid)
  {
    MarkFailedFails(db, ag.adapters[aid].ws, "agent stream closed unexpectedly");
    DrainExitForgets(ag, aid);
  }

  lemma DrainExitForgets(ag: Agents, aid: AdapterId)
    requires Draining(ag, aid)
    ensures var ag', id := DrainExit(ag, aid), ag.adapters[aid].ws;
            && ag'.adapters.Keys == ag.adapters.Keys && !ag'.adapters[aid].draining
            && ag'.sessions == ag.sessions - {id}
            && (id in ag.sessions && ag.sessions[id] in ag.adapters ==> ag'.adapters[ag.sessions[id]].cancelled)
  {
  }

  // ---- Prepare and Merge ----

  /** The branch of a workspace: the prefix and the first eight characters of its id. */
  function BranchOf(id: Id): string {
    "ctrlroom/" + if |id| <= 8 then id else id[..8]
  }

  ghost predicate Prepares(db: Db, git: Git, db': Db, git': Git, id: Id, ok: bool, err: Error) {
    if id !in db.rows then err == WorkspaceNotFound && db' == db && git' == git
    else if db.rows[id].projectId !in db.projects then err == ProjectNotFound && db' == db && git' == git
    else Places(db, git, db', git', id, db.projects[db.rows[id].projectId], ok, err)
  }

  /** Prepare of a workspace of this project. */
  ghost predicate Places(db: Db, git: Git, db': Db, git': Git, id: Id, proj: Project, ok: bool, err: Error)
    requires id in db.rows
  {
    var row, repo, branch := db.rows[id], proj.repoPath, BranchOf(id);
    && (err == InvalidTransition <==> row.status !in {Queued, Idle})
    && (err == NoError <==>
          row.status in {Queued, Idle} && (repo, branch) !in git.refs && (repo, proj.defaultBranch) in git.refs && ok)
    && (err in {InvalidTransition, WorktreeAddFailed, NoError})
    && (err == NoError ==>
          && RowOnly(db, db', id,
                     row.(status := Idle, branch := branch, worktreePath := git.root + "/" + git.slug(repo) + "/" + id,
                          targetRef := proj.defaultBranch, updatedAt := db.clock))
          && (repo, proj.defaultBranch) in git.refs
          && git' == git.(refs := git.refs[(repo, branch) := git.refs[(repo, proj.defaultBranch)]]))
    && (err == WorktreeAddFailed ==> RowOnly(db, db', id, row.(status := Failed, updatedAt := db.clock)))
    && (err == InvalidTransition ==> db' == db)
    && (err != NoError ==> git' == git)
  }

  lemma PreparePrepares(db: Db, git: Git, id: Id, ok: bool)
    ensures var r := Prepare(db, git, id, ok); Prepares(db, git, r.0, r.1, id, ok, r.2)
  {
    if id in db.rows && db.rows[id].projectId in db.projects && db.rows[id].status in {Queued, Idle} {
      var proj := db.projects[db.rows[id].projectId];
      if CanAddWorktree(git, proj.repoPath, id, proj.defaultBranch, ok) {
        PreparePlaces(db, git, id, ok);
      } else {
        PrepareFails(db, git, id, ok);
      }
    }
  }

  lemma PreparePlaces(db: Db, git: Git, id: Id, ok: bool)
    requires id in db.rows && db.rows[id].projectId in db.projects && db.rows[id].status in {Queued, Idle}
    requires var proj := db.projects[db.rows[id].projectId];
             CanAddWorktree(git, proj.repoPath, id, proj.defaultBranch, ok)
    ensures var r, proj := Prepare(db, git, id, ok), db.projects[db.rows[id].projectId];
            var repo, branch := proj.repoPath, BranchOf(id);
            && r.2 == NoError
            && RowOnly(db, r.0, id,
                       db.rows[id].(status := Idle, branch := branch,
                                    worktreePath := git.root + "/" + git.slug(repo) + "/" + id,
                                    targetRef := proj.defaultBranch, updatedAt := db.clock))
            && r.1 == git.(refs := git.refs[(repo, branch) := git.refs[(repo, proj.defaultBranch)]])
  {
  }

  lemma PrepareFails(db: Db, git: Git, id: Id, ok: bool)
    requires id in db.rows && db.rows[id].projectId in db.projects && db.rows[id].status in {Queued, Idle}
    requires var proj := db.projects[db.rows[id].projectId];
             !CanAddWorktree(git, proj.repoPath, id, proj.defaultBranch, ok)
    ensures var r := Prepare(db, git, id, ok);
            && r.2 == WorktreeAddFailed && r.1 == git
            && RowOnly(db, r.0, id, db.rows[id].(status := Failed, updatedAt := db.clock))
  {
  }

  ghost predicate Merges(db: Db, git: Git, db': Db, git': Git, id: Id, tree: MergeTree, ok: bool, err: Error) {
    if id !in db.rows then err == WorkspaceNotFound && db' == db && git' == git
    else if db.rows[id].projectId in db.projects then
      var proj := db.projects[db.rows[id].projectId];
      MergesInto(db, git, db', git', id, proj.repoPath,
                 if db.rows[id].targetRef != "" then db.rows[id].targetRef else proj.defaultBranch, tree, ok, err)
    else
      && err == (if db.rows[id].status in {Completed, ResolvingConflict} then ProjectNotFound else InvalidTransition)
      && db' == db && git' == git
  }

  /** Merge of a workspace of this repository into this branch: its own target, or the
      project's default branch when it has none. */
  ghost predicate MergesInto(db: Db, git: Git, db': Db, git': Git, id: Id, repo: string, target: string,
                             tree: MergeTree, ok: bool, err: Error)
    requires id in db.rows
  {
    var row := db.rows[id];
    && (err == InvalidTransition <==> row.status !in {Completed, ResolvingConflict})
    && (row.status in {Completed, ResolvingConflict} ==>
          && (err == MergeTreeFailed <==> tree == TreeError)
          && (err == UpdateBranchFailed <==> tree == Clean && ((repo, target) !in git.refs || !ok)))
    && (err in {InvalidTransition, MergeTreeFailed, UpdateBranchFailed, NoError})
    && (err != NoError ==> db' == db && git' == git)
    && (err == NoError && tree == Clean ==>
          && (repo, target) in git.refs
          && RowOnly(db, db', id, row.(status := Merged, pendingMerge := None, updatedAt := db.clock))
          && git'.commits == git.commits + [Commit(Some(git.refs[(repo, target)]), Some(id))]
          && git'.refs == git.refs[(repo, target) := |git.commits|])
    && (err == NoError && tree == Conflict ==> git' == git && Conflicts(db, db', id, target))
  }

  /** The first conflict is attempt 1 of 2, the second attempt 2; after that the workspace is stuck. */
  predicate Conflicts(db: Db, db': Db, id: Id, target: string)
    requires id in db.rows
  {
    var row := db.rows[id];
    match row.pendingMerge
    case None => RowOnly(db, db', id, row.(pendingMerge := Some(PendingMerge(target, 1, 2)), updatedAt := db.clock))
    case Some(p) =>
      if p.attempt <= 1 then
        RowOnly(db, db', id,
                row.(pendingMerge := Some(PendingMerge(target, p.attempt + 1, 2)), updatedAt := db.clock))
      else RowOnly(db, db', id, row.(status := ConflictStuck, pendingMerge := None, updatedAt := db.clock))
  }

  lemma MergeMerges(db: Db, git: Git, id: Id, tree: MergeTree, ok: bool)
    ensures var r := Merge(db, git, id, tree, ok); Merges(db, git, r.0, r.1, id, tree, ok, r.2)
  {
    if id in db.rows && db.rows[id].projectId in db.projects && Mergeable(db.rows[id].status) && tree == Conflict {
      ConflictedConflicts(db, id, Target(db, db.rows[id]));
    }
  }

  lemma ConflictedConflicts(db: Db, id: Id, target: string)
    requires id in db.rows && db.rows[id].status in {Completed, ResolvingConflict}
    ensures Conflicted(db, id, target).1 == NoError && Conflicts(db, Conflicted(db, id, target).0, id, target)
  {
  }

  // ---- the boot sweep ----

  /** The workspaces whose agent the restart has lost. */
  predicate IsOrphan(db: Db, id: Id) {
    && id in db.rows
    && db.rows[id].status in {Running, Preparing, AwaitingInput, ResolvingConflict, AwaitingApproval}
  }

  ghost predicate AreOrphans(db: Db, ids: seq<Id>) {
    (forall id :: id in ids <==> IsOrphan(db, id)) && forall i, j :: 0 <= i < j < |ids| ==> ids[i] != ids[j]
  }

  lemma QueryIsOrphans(db: Db, ids: seq<Id>)
    ensures IsActiveQuery(db, ids) <==> AreOrphans(db, ids)
  {
    assert forall id :: IsOrphan(db, id) <==> id in db.rows && AgentDependent(db.rows[id].status);
  }

  /** The orphans have failed, the others are as they were, and each orphan's log ends with
      the same notice, in the order of the query. */
  ghost predicate Sweeps(db: Db, db': Db, ids: seq<Id>) {
    && db'.rows.Keys == db.rows.Keys
    && (forall id :: id in db.rows ==>
          db'.rows[id] ==
          if IsOrphan(db, id) then
            db.rows[id].(status := Failed, completedAt := Some(db.clock), updatedAt := db.clock)
          else db.rows[id])
    && |db'.log| == |db.log| + |ids| && db'.log[..|db.log|] == db.log
    && forall i :: 0 <= i < |ids| ==>
         db'.log[|db.log| + i] ==
         LogEntry(ids[i], System, "Server was restarted while this workspace was active; agent session lost.")
  }

  // ---- projects and new workspaces ----

  /** A new workspace is queued, with no place, no agent and no costs yet. */
  lemma NewWorkspaceIsQueued(db: Db, id: Id, pid: string, agentType: string)
    ensures var db' := Insert(db, id, pid, agentType);
            && db'.rows.Keys == db.rows.Keys + {id} && db'.issued == db.issued + {id} && db'.log == db.log
            && (forall other :: other in db.rows && other != id ==> db'.rows[other] == db.rows[other])
            && db'.rows[id].projectId == pid && db'.rows[id].agentType == agentType && db'.rows[id].status == Queued
            && db'.rows[id].worktreePath == "" && db'.rows[id].targetRef == "" && db'.rows[id].pendingMerge == None
            && db'.rows[id].tokensIn == 0 && db'.rows[id].tokensOut == 0 && db'.rows[id].costUsd == 0.0
  {
  }

  /** A project goes with its own workspaces, and with no others. */
  lemma DropTakesItsWorkspaces(db: Db, pid: string, id: Id)
    ensures var db' := RemoveProject(db, pid);
            && (id in db'.rows <==> id in db.rows && db.rows[id].projectId != pid)
            && (id in db'.rows ==> db'.rows[id] == db.rows[id])
            && db'.projects.Keys == db.projects.Keys - {pid}
            && forall other :: other in db'.projects ==> db'.projects[other] == db.projects[other]
  {
  }
}
