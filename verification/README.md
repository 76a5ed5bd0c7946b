# CtrlRoom in Dafny

A verification project beside CtrlRoom, the server that runs coding agents in git worktrees. It models the
parts of the server whose correctness is not visible in any one function, and proves what they promise
together.

- **Workspaces, agents and merges** (`Status`, `World`, `Outcomes`, `Lifecycle`, `ModelA`, `Runs`, `MergeRuns`,
  `Managers`). Every call of the agent and workspace managers, every step of a drain, the boot sweep and the
  agents' own commits are steps of one transition system over the database rows, the session map, the adapters'
  channels and the git refs. `World` gives each call as a function of that state. `Outcomes` says what each call
  leaves, by columns, log entries and answers. `Managers` gives each call as the source runs it, statement by
  statement over shared tables, proved to be that function. `Runs` and `MergeRuns` hold the theorems about all
  runs. Adapters are adversaries: they may emit any event and close their stream at any time.
- **Stop against the drain and other calls** (`StopRace`). The same race with every database access, channel
  operation and cancellation as its own step.
- **Totals** (`CostLedger`, `CostChains`, `CostRuns`), **message log** (`MessageLog`) and **replay-to-live handoff**
  (`Handoff`), each with reads and writes, or persisting and broadcasting, as separate steps. `Sessions` gives the
  ledger and the handoff their drains: successive sessions of one workspace whose drains outlive them.
- **Adapters** (`FakeAdapters`, `EventStream`, `OpenCode`). The scripted adapter's bounded channel; the line
  parser of the event stream, proved against an independent definition of the standard's; the once-per-turn
  done rule.
- **Partial updates as a compiler** (`UpdateSql`, `WorkspaceRow`). The generated SQL text and arguments are
  parsed and executed by a small engine, and shown to mean the patch.
- **Password hashes** (`PasswordHash`, `Base64`, `Text`), **migrations** (`Migrations`) and **board order**
  (`IssueBoard`).

`dafny verify dfyconfig.toml` checks the whole project.

Where a promise does not hold of the code, the code was kept; an input is given and the exact condition proved.

- *Terminal statuses are final.* With calls as single steps, a workspace leaves one exactly when its own drain
  handles turn_complete (`Runs.TerminalUnlessLateDone`, with the run `Runs.RevivalIsReachable`). With every access
  its own step, exactly two kinds of step leave one: a drain, of this session or an older one of the workspace,
  that ends a turn, and a write whose guard read an earlier status (`StopRace.TerminalChangesExactly`, with the
  runs `StopRace.FailedThenCancelled` and `StopRace.CancelledThenRunning`).
- *No cost is lost.* Totals are conserved exactly when nothing was lost (`CostLedger.TotalsAreConservedExactly`),
  for positive costs exactly when every write had read the row as it then was
  (`CostChains.ConservedExactlyWhenFresh`); and nothing is lost unless a Start falls between the two halves of a
  cleanupSession (`CostLedger.TotalsAreConserved`, with the run `CostRuns.GapLosesCost`).
- *The log explains the totals.* A Stop between an event's insert and its cost's read leaves the event in the log
  and out of the totals (`CostRuns.StopCutsCost`). They agree exactly when what was lost and what was logged but
  not counted cancel out (`CostLedger.LogExplainsTotals`); for positive costs, exactly when every write had read
  the row as it then was and no read or write failed for a logged event (`CostChains.LogExplainsExactly`).
- *Every event reaches a client once.* It reaches it (`Handoff.EveryEventReachesTheClient`), but twice exactly
  when it was persisted before the client's query and broadcast after its subscription
  (`Handoff.ReceivedTwiceExactly`, with the run `Handoff.ReceivedTwice`); live frames carry no number to tell by.
- *Live events come in log order.* They do exactly when every broadcast takes the oldest event in flight
  (`Handoff.HeardInOrderExactly`, with the run `Handoff.TwoDrainsCanReorder`).
- *Data lines read as in the standard.* `EventStream.DeliveredAsStandard` says for which streams.
- *Migrations execute in sorted order.* Over changing file sets, `Migrations.ExecutedInOrderExactly` says when.
- *One done event per turn.* Exactly one per prompt that is followed by a finished message
  (`OpenCode.OneDonePerTurn`), but that message may be the previous turn's (`OpenCode.LateFinishEndsNextTurn`);
  `OpenCode.DoneIsTheTurnsOwnExactly` says when it is the turn's own.

Code and documentation disagree in these places, and the model follows the code:

- The comment on Cancel (`internal/workspace/manager.go:113`) leaves out running and awaiting_input, which the
  table lets it cancel.
- The comment on Start (`internal/agent/manager.go:52`) names idle only; awaiting_input passes its guard too.
- Nothing writes resolving_conflict or awaiting_approval, although the table and the sweep name them.
- `internal/types/workspace.go:49-55` does not count conflict_stuck as terminal; the state machine does.
- The stream's `since` is -1 when it is not given, not 0 (`internal/api/stream.go:27`, `:56`); its live frames
  carry no sequence number and it sends no lag frames, unlike `DESIGN.md:296-306`.
- The first conflict is attempt 1 (`internal/workspace/manager.go:200`); `DESIGN.md:121` starts at 0.
- The adapter contract (`internal/agent/adapter.go:54-57`) asks to drop the oldest event on overflow; the
  scripted adapter drops the newest.

Conventions: timestamps are integers and the clock a parameter; ids are fresh values chosen by the caller;
cost in dollars is a real number; a call's outside answers (does the factory, the spawn, git, the insert
succeed) are parameters; ghost fields only record what happened.

## Model

| member | source | states |
|---|---|---|
| `Status.NoWayOut` | internal/workspace/state.go:16-81 | No transition leaves a status exactly when it is terminal or awaiting_approval, which the source does not call terminal |
| `Status.CancellableExactly` | internal/workspace/state.go:16-55 | A status can be cancelled exactly when it can be left at all |
| `Status.SetupIsNotReentered` | internal/workspace/state.go:16-68 | No walk of the table, of any length, comes back to queued, preparing or idle once it has left them |
| `Status.EnteredExactlyFrom` | internal/workspace/state.go:26-68 | From which statuses each status can be entered, read against the table by target |
| `ModelA.StepKeeps` | internal/agent/manager.go:58-401 | Every call, drain step, sweep and agent commit keeps the invariant, writes only allowed statuses and only extends git history |
| `ModelA.MergeInFull` | internal/workspace/manager.go:156-242 | What one Merge does, case by case: refused calls change nothing, a clean one makes one commit on the target, a conflict records or gives up |
| `ModelA.CommitGrows` | internal/git/merge.go:104-118 | A commit on a branch keeps every earlier commit, makes the earlier tip an ancestor and adds its merger, if any, to the record of merges |
| `Runs.RunKeeps` | internal/agent/manager.go:58-401 | The invariant holds after every run from a fresh server |
| `Runs.StatusesAreTheHistory` | internal/workspace/manager.go:291-300 | In every reachable state the status columns are the chained history of status writes, row by row |
| `Runs.StatusWritesAreAllowed` | internal/workspace/state.go:16-68 | With calls as single steps, every status write of every run is an edge of the table, a live workspace forced to failed, or the turn_complete write to awaiting_input |
| `Runs.DeadStatuses` | internal/workspace/state.go:26-55 | resolving_conflict and awaiting_approval are never reached |
| `Runs.TerminalUnlessLateDone` | internal/agent/manager.go:347-354 | With calls as single steps, a step moves a workspace out of a terminal status if and only if it is its own drain handling turn_complete |
| `Runs.StoppedThenRevived` | internal/agent/manager.go:162-195 | From every state in which a running workspace is stopped with a turn_complete anywhere in its buffer, the drain can go on to move it from cancelled to awaiting_input |
| `Runs.RevivalIsReachable` | internal/agent/manager.go:162-195 | From every fresh server, for any project over a repository with its default branch, any workspace and any turn_complete, a run of seven calls and steps ends with the stopped workspace awaiting input |
| `Runs.OneLiveDrain` | internal/agent/manager.go:58-127 | In every reachable state a workspace has at most one drain under a context not cancelled |
| `Runs.SetupHasNoSession` | internal/agent/manager.go:67-113 | In every reachable state a workspace in queued, preparing or idle has neither session nor adapter, whatever the adapters emit |
| `Runs.AlreadyActiveExactly` | internal/agent/manager.go:105-111 | Start meets an existing session exactly when it restarts an awaiting workspace that has one; never from idle |
| `Runs.PendingMergeCountsConflicts` | internal/workspace/manager.go:199-234 | In every reachable state pending_merge is absent iff no conflict is unsettled; otherwise attempt is the number of conflicts, at most 2 |
| `Runs.NextConflictSticks` | internal/workspace/manager.go:205-224 | The next conflict leads to conflict_stuck exactly when two are already counted, clears pending_merge and makes no commit |
| `Runs.MergesAreConserved` | internal/workspace/manager.go:179-197 | Over every run the merge commits, in order, are the transitions to merged: none lost, none without one |
| `Runs.MergedExactlyByCleanMerge` | internal/workspace/manager.go:156-197 | merged is entered by a clean merge of a completed workspace and nothing else; it adds one commit on the target's previous tip and moves no other ref |
| `Runs.TipsRemainAncestors` | internal/git/merge.go:97-118 | Between any two points of a run every earlier branch tip is an ancestor of the later one |
| `Runs.PreparedNamesAreDistinct` | internal/workspace/manager.go:278-289 | Prepared workspaces never share a worktree path, nor a branch of one repository, although branches keep 8 characters of the id |
| `Runs.PrepareSucceedsExactly` | internal/workspace/manager.go:41-90 | Prepare succeeds exactly for a queued workspace whose branch name is free; on an idle one it passes the guard and then fails it |
| `Runs.SweepLeavesNoOrphan` | internal/agent/sweep.go:20-63 | After the sweep no workspace is running, preparing, awaiting_input, resolving_conflict or awaiting_approval |
| `Runs.SweepSettlesOrphans` | internal/agent/sweep.go:20-63 | From any database: exactly the rows in those five statuses fail, with the time, all others are untouched, the log gains the same notice for each in the order of the query, and a second sweep finds nothing |
| `MergeRuns.MergeIsReachable` | internal/workspace/manager.go:41-242 | From every fresh server: registered, prepared, completed and merged cleanly, any workspace ends merged, and its branch has exactly one more commit, on its earlier tip |
| `MergeRuns.MergesIntoItsOrigin` | internal/workspace/manager.go:168-242 | Over every run, a workspace merges into the branch that was its project's default when it was prepared, whatever the default is by then; a pending merge names the same branch |
| `MergeRuns.TargetStays` | internal/workspace/manager.go:46-90 | From its Prepare on, over every run, a workspace keeps its target and its repository as long as it exists |
| `Outcomes.MarkFailedFails` | internal/agent/manager.go:365-389 | A workspace that is not merged, failed, cancelled or stuck becomes failed with the time and one notice naming the cause; nothing happens to any other |
| `Outcomes.CompleteCompletes` | internal/agent/manager.go:197-217 | Complete succeeds exactly for a completed, idle, awaiting_input or resolving_conflict row, which is then completed with the time, other columns and rows as before; on an error nothing changes |
| `Outcomes.CancelCancels` | internal/workspace/manager.go:115-135 | Cancel succeeds exactly for the seven statuses that are not over, and changes the status alone |
| `Outcomes.SendPromptPrompts` | internal/agent/manager.go:129-160 | Each answer of SendPrompt with its exact condition, row and log entry: running and the prompt as a user message, or failed and a notice |
| `Outcomes.StartStarts` | internal/agent/manager.go:58-127 | Each answer of Start with its exact condition, and what it leaves in the row, the log, the session map and the adapters |
| `Outcomes.StopStops` | internal/agent/manager.go:162-195 | With a session, Stop forgets it, cancels and closes its adapter, and cancels a workspace in any of the seven statuses that are not over, with the time; without one it does nothing |
| `Outcomes.PreparePrepares` | internal/workspace/manager.go:41-90 | Each answer of Prepare with its exact condition; success stores the branch ctrlroom/ and eight characters of the id, the path and the target, and puts the branch at the default branch's tip |
| `Outcomes.MergeMerges` | internal/workspace/manager.go:156-242 | Each answer of Merge with its exact condition; a clean one commits on the row's own target, or on the default branch when it has none, and on no other; a conflict is attempt 1, then 2, then stuck |
| `Outcomes.TerminalEndsTurn` | internal/agent/manager.go:347-363 | What a done event does, by the text of its reason: awaiting_input, nothing, or a failure with its notice; a missing or malformed reason is a process exit |
| `Outcomes.ApplyCostCounts` | internal/agent/manager.go:311-330 | A cost event adds its tokens_in, tokens_out and cost_usd to those three columns, in 64 bits, fractions of counts dropped, and changes no other column |
| `Outcomes.LiveEventTakes` | internal/agent/manager.go:291-299 | Under a live context an event is stored under the role of its kind, then counted, and a done event then ends the turn |
| `Outcomes.CancelledEventTakes` | internal/agent/manager.go:281-299 | Under a cancelled context an event leaves nothing, but a done event still ends the turn |
| `Outcomes.DrainClosedEndsStream` | internal/agent/manager.go:270-280 | A closed stream fails a live workspace unless the context was cancelled, stops the drain and forgets the session |
| `Managers.DrainTells` | internal/agent/manager.go:281-309 | The log of a live drain: one entry per event taken, under its role and in order, each failed turn followed by its notice, and nothing else |
| `Managers.SessionsWriteTheSame` | internal/agent/manager.go:347-363 | The session steps of the ledger and the handoff write the same statuses as the managers here |
| `Managers.Database.UpdateWorkspace` | internal/db/workspace.go:149-170 | One row takes the patch, the others stay, a missing row changes nothing |
| `Managers.AgentManager.StartAgent` | internal/agent/manager.go:58-127 | The statements of Start over the shared tables are one step of model A, with the same error; it keeps the invariant and writes only allowed statuses |
| `Managers.AgentManager.Prompt` | internal/agent/manager.go:129-160 | SendPrompt is one step of model A, keeps its invariant, and leaves exactly what Outcomes.SendPromptPrompts says for each answer |
| `Managers.AgentManager.StopAgent` | internal/agent/manager.go:162-195 | Stop is one step of model A, keeps its invariant, and leaves exactly what Outcomes.StopStops says |
| `Managers.AgentManager.CompleteWorkspace` | internal/agent/manager.go:197-217 | Complete writes completed, with the time, to exactly the rows that may be completed, and nothing else; it keeps the invariant |
| `Managers.AgentManager.Drain` | internal/agent/manager.go:263-289 | The loop over a stream that is over: its events in order, then a failure only under a live context, then no session |
| `Managers.AgentManager.DrainEvents` | internal/agent/manager.go:266-288 | Under a live context every buffered event is taken and broadcast in order, and the log gains one entry for each, failed turns with a notice; under a cancelled one as many are taken as the select still takes |
| `Managers.DrainAddsUp` | internal/agent/manager.go:311-330 | However many turns end on the way, a live drain adds to the totals the fold of CostOf over the events it took |
| `Managers.CancelledDrainCountsNothing` | internal/agent/manager.go:291-299 | A cancelled drain persists no event and counts no cost; only a failure notice can follow |
| `Managers.AgentManager.DrainOne` | internal/agent/manager.go:281-299 | One event of the drain is stored under its role, counted and, when it is a done event, ends the turn, but under a cancelled context only the last; it is broadcast either way, and the invariant is kept |
| `Managers.AgentManager.DrainEnd` | internal/agent/manager.go:270-280 | The closed branch of the drain fails a live workspace under a live context, ends the drain and forgets the session |
| `Managers.AgentManager.AddCost` | internal/agent/manager.go:311-330 | applyCost adds the event's cost to the three totals, with 64-bit wrap-around, and changes nothing else |
| `Managers.AgentManager.FinishTurn` | internal/agent/manager.go:347-363 | handleTerminal, by the text of the reason |
| `Managers.AgentManager.Fail` | internal/agent/manager.go:365-389 | markFailed forces any live status to failed and leaves one notice; others are left alone |
| `Managers.AgentManager.Cleanup` | internal/agent/manager.go:391-401 | cleanupSession forgets and cancels the session the map holds |
| `Managers.WorkspaceManager.PrepareWorkspace` | internal/workspace/manager.go:41-90 | Prepare is one step of model A on rows and refs with the exact outcome for each answer; it keeps the invariant and git history |
| `Managers.WorkspaceManager.CancelWorkspace` | internal/workspace/manager.go:115-135 | Cancel writes cancelled to exactly the rows that are not over; it keeps the invariant |
| `Managers.WorkspaceManager.MergeWorkspace` | internal/workspace/manager.go:156-242 | Merge commits on the row's own target branch, or the default without one, and writes the exact row for each answer; it keeps the invariant and only extends git history |
| `Managers.WorkspaceManager.WorktreeAdd` | internal/git/branch.go:66-101 | A new branch at the base's tip, or nothing when the branch exists |
| `Managers.WorkspaceManager.UpdateBranch` | internal/git/merge.go:104-118 | One commit on the branch's current tip, and the ref moved to it |
| `Managers.SweepOrphans` | internal/agent/sweep.go:20-63 | The two loops fail exactly the rows in the five statuses, leave a notice for each in the query's order, and return their count |
| `StopRace.StopIsNotRecordedAsFailure` | internal/agent/manager.go:173-194 | In every interleaving of single accesses, if only Stop closes the channel, the drain's closed branch never records a failure |
| `StopRace.OtherCloseIsRecorded` | internal/agent/manager.go:270-280 | That hypothesis is needed: a close by the adapter itself can be recorded as a failure |
| `StopRace.StoppedIsCancelled` | internal/agent/manager.go:162-195 | A finished Stop that found a cancellable status leaves it cancelled iff nothing was written since or cancelled was written last; other calls and closers apart, iff no done event was still handled, by its own drain or an older session's |
| `StopRace.StatusChangesExactly` | internal/agent/manager.go:347-389 | In every reachable state of single accesses, a step changes the status iff a drain of this or an older session ends a turn in it or it makes another write, and that write was let through by a guard on the status its writer had read |
| `StopRace.TerminalChangesExactly` | internal/agent/manager.go:347-389 | There a terminal status is left exactly by a drain, of this session or an older one, that ends a turn, or by a write whose guard read an earlier status |
| `StopRace.FailedThenCancelled` | internal/agent/manager.go:366-383 | From every running workspace, a failure written by markFailed can be overwritten by a Stop that read running before it |
| `StopRace.CancelledThenRunning` | internal/agent/manager.go:137-149 | A cancelled status can be overwritten by a SendPrompt that read awaiting_input before it |
| `Sessions.StepKeepsLive` | internal/agent/manager.go:391-401 | A live drain is the one its session names, or its session was deleted from the map and not cancelled yet |
| `Sessions.OutsideGapKeeps` | internal/agent/manager.go:391-401 | Unless a Start falls between the delete and the cancellation of a cleanupSession, that state never has both |
| `Sessions.GapFreeIsOneLive` | internal/agent/manager.go:391-401 | In such a state at most one drain is live |
| `CostLedger.TotalsAreConservedExactly` | internal/agent/manager.go:311-330 | In every interleaving of reads, writes, sessions and other updates, the totals are the initial ones plus every cost written, modulo 64 bits, iff nothing was lost: what rows held beyond what their writers had read |
| `CostLedger.TotalsAreConserved` | internal/agent/manager.go:311-330 | Nothing is lost unless a Start falls between the delete and the cancellation of a cleanupSession, whatever fails |
| `CostLedger.SerialRunsLoseNothing` | internal/agent/manager.go:311-330 | Nor when no two drains overlap between read and write |
| `CostLedger.LogExplainsTotals` | internal/agent/manager.go:291-330 | In every interleaving, whatever fails: between events the totals are the initial ones plus the fold of CostOf over the persisted log, modulo 64 bits, iff what was lost and what was logged but not counted cancel out |
| `CostLedger.LogExplainsGapFreeTotals` | internal/agent/manager.go:291-330 | They are so over any number of sessions when no Start falls in a cleanupSession gap and no cost is given up while its event is in the log, or counted while it is not |
| `CostLedger.ColumnsApart` | internal/agent/manager.go:316-327 | A read hands over each of the three columns, and the write stores each sum in its own column |
| `CostChains.TotalsAreTheLastChain` | internal/agent/manager.go:311-330 | In every run the totals are the initial ones plus the costs on one chain of writes, each of which had read the result of the one before, ending in the last write |
| `CostChains.ConservedExactlyWhenFresh` | internal/agent/manager.go:311-330 | For positive costs that do not wrap around, no cost is lost iff every write had read the row as it was when the write went through |
| `CostChains.ChainAgainstSum` | internal/agent/manager.go:311-330 | A chain of writes adds up to all writes iff each had read the one before it |
| `CostChains.LogExplainsExactly` | internal/agent/manager.go:291-330 | For such costs, with nothing counted that is not in the log: the log explains the totals iff every write had read the row as it then was and no read or write failed for an event in the log |
| `CostRuns.GapLosesCost` | internal/agent/manager.go:391-401 | From every fresh start and for any two cost events, a run through the cleanupSession gap counts both and keeps only the second |
| `CostRuns.StopCutsCost` | internal/agent/manager.go:291-317 | From every fresh start and for any cost event, a Stop between its insert and its read leaves it in the log and the totals as they were |
| `CostRuns.StopLeavesUnexplained` | internal/agent/manager.go:291-317 | After that run the log explains the totals iff the cost adds nothing to them |
| `MessageLog.NumbersAreGapFree` | internal/db/message.go:28-74 | Under any interleaving of writers and deletes each workspace's rows carry exactly 0..n-1 |
| `MessageLog.LogsAreIndependent` | internal/db/message.go:28-74 | A change to one workspace leaves the other logs alone; a message appends to its own with the next number |
| `MessageLog.PageIsSlice` | internal/db/message.go:101-118 | A page is the slice of the log right after `since`, of at most the limit (500 by default) |
| `MessageLog.ClientHoldsPrefix` | internal/db/message.go:101-118 | With any writes between its pages, a client paging by the last number seen holds a gap-free, repeat-free prefix |
| `MessageLog.CatchupGetsAll` | internal/db/message.go:101-118 | On a quiescent log paging ends, whatever the page size, with the whole log |
| `MessageLog.MessageStore.CreateMessage` | internal/db/message.go:28-74 | The message gets the next number of its workspace; a bad role or a missing workspace changes nothing |
| `MessageLog.MessageStore.ScanMessages` | internal/db/message.go:171-190 | The scan loop returns the result rows unchanged |
| `MessageLog.MessageStore.ListMessages` | internal/db/message.go:101-118 | The rows past `since`, in order, up to the limit |
| `MessageLog.MessageStore.ListAllMessagesByWorkspace` | internal/db/message.go:122-135 | The whole log of the workspace, in order |
| `MessageLog.MessageStore.LastSeq` | internal/db/message.go:139-152 | The log's length minus one; -1 when it is empty |
| `MessageLog.MessageStore.DeleteMessagesByWorkspace` | internal/db/message.go:156-169 | Empties one log, keeps every other, and returns the count |
| `Handoff.EveryEventReachesTheClient` | internal/api/stream.go:53-105 | In every interleaving of drains and clients, every persisted adapter event past `since` reaches a lossless client by replay or live |
| `Handoff.BroadcastReaches` | internal/agent/manager.go:332-345 | A broadcast goes to the end of every channel with fewer than 256 items waiting and is recorded as dropped by the others |
| `Handoff.QueryCuts` | internal/api/stream.go:108-113 | A replay counts as cut exactly when more than 1000 rows are past `since` |
| `Handoff.ReplayIsTheLogPastSince` | internal/api/stream.go:108-137 | A live client was replayed exactly the rows past `since` its query saw, once each, in order, up to 1000 |
| `Handoff.ReceivedTwiceExactly` | internal/api/stream.go:53-105 | In every interleaving, a live client gets an event both by replay and live iff it was persisted past `since` before the client's query, within the limit, and broadcast after the client's subscription |
| `Handoff.ReceivedTwiceIsUnsettled` | internal/api/stream.go:53-105 | Once nothing is in flight: iff it is in the replay and was in flight at the subscription or persisted between subscription and query |
| `Handoff.BroadcastsAre` | internal/agent/manager.go:291-299 | What a run broadcasts is what was in flight before it or got persisted in it, less what is in flight after it |
| `Handoff.ReceivedTwice` | internal/api/stream.go:53-105 | From every fresh start and for any event, a run in which a client gets it by replay and live |
| `Handoff.HeardInOrderExactly` | internal/agent/manager.go:291-299 | In every interleaving, a client that listens until nothing is in flight hears exactly what is broadcast, in log order iff every broadcast took the oldest numbered event in flight |
| `Handoff.HeardIsBroadcast` | internal/agent/manager.go:332-345 | Over every run, what a listening client hears is what was broadcast since, in that order |
| `Handoff.LivePartIsInLogOrder` | internal/agent/manager.go:291-299 | So with one event in flight at a time every listening client hears in log order |
| `Handoff.TwoDrainsCanReorder` | internal/agent/manager.go:291-299 | From every fresh start and for any two events, a run of three successive sessions in which a client hears them in the wrong order |
| `Handoff.ReplayRowsArePage` | internal/api/stream.go:109 | The numbers replayed are those of the page the messages table returns for limit 1000 |
| `Handoff.StreamWorkspace` | internal/api/stream.go:53-105 | The frames on the socket: the rows of the store past `since`, -1 by default, then what the loop received from its subscription, by the steps of the protocol |
| `Handoff.LiveLoop` | internal/api/stream.go:83-105 | The live loop turns each item received from its channel into a frame, while broadcasts go on |
| `Handoff.Subscribers.BroadcastItem` | internal/agent/manager.go:332-345 | Every subscriber with fewer than 256 buffered items gets the item at its end, the others miss it |
| `Handoff.ReplayPersisted` | internal/api/stream.go:108-137 | The replay loop sends one frame per row of the page the store lists; the number of row 0 is left out, as omitempty does |
| `Handoff.FramesShow` | internal/api/stream.go:94-137 | A replay frame carries its row's number, none for row 0; a live frame is the event without a number |
| `Handoff.ReplayShows` | internal/api/stream.go:108-137 | The frames of a replay are the rows after `since` one by one, at most 1000 |
| `Handoff.ReplayRowsMember` | internal/api/stream.go:109 | The rows replayed are exactly those past `since`, the first 1000 of them |
| `UpdateSql.QueryReadsBack` | internal/db/workspace.go:149-232 | The text of the generated UPDATE parses back to the columns of the patch, in order, after updated_at |
| `UpdateSql.AssignTerms` | internal/db/workspace.go:174-232 | The i-th placeholder takes the i-th argument, NULL takes none, and columns without a fragment keep their value |
| `UpdateSql.ExecutingIsApplying` | internal/db/workspace.go:149-170 | For every patch, executing the statement is applying the patch to the named row; all other rows stay |
| `UpdateSql.DisjointPatchesCommute` | internal/db/workspace.go:128-145 | Patches over disjoint columns commute up to updated_at |
| `UpdateSql.SetClause` | internal/db/workspace.go:174-232 | The thirteen conditional appends build exactly the fragments and arguments of the patch |
| `UpdateSql.StatementText` | internal/db/workspace.go:149-235 | The whole text of the statement for any patch, each term by its column name and in order, and the arguments of its question marks |
| `UpdateSql.WorkspaceTable.UpdateWorkspace` | internal/db/workspace.go:149-170 | Through text and engine, the named row becomes the patched record; an unknown id is not-found and changes nothing |
| `FakeAdapters.ChannelIsSafe` | internal/agent/fake.go:126-181 | In every interleaving no send on a closed channel, no second close, at most 64 buffered |
| `FakeAdapters.NothingSentAfterStop` | internal/agent/fake.go:138-153 | After Stop nothing is ever enqueued again |
| `FakeAdapters.ReplaysAreSubsequences` | internal/agent/fake.go:126-157 | What a replay sent is an in-order selection of its script, each event sent or dropped; what was received is the first part of it |
| `FakeAdapters.WholeScriptWhenNothingLost` | internal/agent/fake.go:126-157 | A replay that finished without overflow sent exactly its script |
| `FakeAdapters.ScriptsInOrder` | internal/agent/fake.go:111-124 | The n-th prompt has the n-th script, later ones the last, and without scripts an explanation and the end of the turn |
| `FakeAdapters.FakeAdapter.SpawnAgent` | internal/agent/fake.go:63-85 | Spawn as one step, with its errors |
| `FakeAdapters.FakeAdapter.NextScript` | internal/agent/fake.go:111-124 | The n-th prompt gets the n-th script, the last one repeating, a default when there is none |
| `FakeAdapters.FakeAdapter.Prompt` | internal/agent/fake.go:87-109 | SendPrompt starts a replay exactly when spawned, not refused and not stopped |
| `FakeAdapters.FakeAdapter.ReplayRound` | internal/agent/fake.go:129-156 | One round under the lock: send, drop when full, or end when stopped |
| `FakeAdapters.FakeAdapter.StopAgent` | internal/agent/fake.go:169-182 | Stop closes once and is idempotent |
| `EventStream.DeliveredJoin` | internal/agent/opencode.go:301-325 | Parsing distributes over concatenation at an event boundary |
| `EventStream.UnendedTailIsLost` | internal/agent/opencode.go:301-325 | Lines after the last blank line are never delivered |
| `EventStream.LinesReadBack` | internal/agent/opencode.go:303-310 | Printed lines, with either line ending, are read back one by one |
| `EventStream.StreamReadsBack` | internal/agent/opencode.go:301-345 | A printed list of multi-line payloads, with other lines mixed in, is delivered as that list up to surrounding white space |
| `EventStream.EveryPayloadCanBeSent` | internal/agent/opencode.go:319-322 | Every payload, multi-line ones included, has such a printing |
| `EventStream.EventAsStandard` | internal/agent/opencode.go:319-345 | One event reads as in section 9.2.6 of the WHATWG HTML Standard, up to surrounding white space, iff no indented or colon-less data line lies between its first and last solid line |
| `EventStream.DeliveredAsStandard` | internal/agent/opencode.go:301-345 | The same for a whole stream, if and only if every event is of that kind |
| `EventStream.SpacedLinesDiffer` | internal/agent/opencode.go:319-322 | Every two-line payload sent with the usual space after the colon comes out changed |
| `EventStream.TrimIsCore` | internal/agent/opencode.go:338 | Trimming removes the white space at both ends, all of it, and nothing else |
| `OpenCode.OneDonePerTurn` | internal/agent/opencode.go:420-441 | Within a turn exactly one done event iff the turn finishes and none was emitted, however often the final message is repeated |
| `OpenCode.AtMostOneDonePerPrompt` | internal/agent/opencode.go:205-212 | Over any run at most one done event per prompt, plus one before the first |
| `OpenCode.OtherSessionsAreIgnored` | internal/agent/opencode.go:352-359 | A frame that names another session changes nothing |
| `OpenCode.OwnFramesEmit` | internal/agent/opencode.go:360-442 | What each kind of frame of the own session, or of none, emits: one done event when it is due, one text or reasoning event with the delta, one cost event with the reported numbers, or nothing |
| `OpenCode.LateFinishEndsNextTurn` | internal/agent/opencode.go:430-441 | The final message of a turn, repeated after the next prompt, ends the new turn too |
| `OpenCode.DoneIsTheTurnsOwnExactly` | internal/agent/opencode.go:420-441 | Between a prompt and the next, a done event is the turn's own iff no final message of another turn comes before the turn's own first one |
| `OpenCode.DoneIsTheFirstFinish` | internal/agent/opencode.go:430-441 | When a done event is due, the frame that emits it is the first final message, and no other does |
| `OpenCode.ForeignFramesLeaveNoTrace` | internal/agent/opencode.go:352-359 | Frames that name a session other than the adapter's can be left out of any run without changing it |
| `OpenCode.EmittedMeans` | internal/agent/events.go:40-84 | What the adapter emits is read back by CostOf and DoneReasonOf as what the frame said |
| `OpenCode.OpenCodeAdapter.ConnectAndStream` | internal/agent/opencode.go:301-330 | The buffer loop handles exactly the delivered payloads of the lines read before the stop, in order |
| `OpenCode.OpenCodeAdapter.HandleSSEEvent` | internal/agent/opencode.go:337-369 | Trim, decode, session filter and dispatch of one payload; one that does not decode or names another session changes nothing |
| `OpenCode.OpenCodeAdapter.HandlePartDelta` | internal/agent/opencode.go:371-385 | Text and reasoning deltas become events, others none |
| `OpenCode.OpenCodeAdapter.HandlePartUpdated` | internal/agent/opencode.go:387-418 | A step-finish part becomes one cost event |
| `OpenCode.OpenCodeAdapter.HandleMessageUpdated` | internal/agent/opencode.go:420-442 | A finished assistant message emits done unless the turn already did |
| `OpenCode.OpenCodeAdapter.SendPrompt` | internal/agent/opencode.go:205-212 | Resets the turn, unless nothing was spawned |
| `PasswordHash.DecodeEncode` | internal/auth/password.go:58-90 | decode undoes encode for all uint32 time and memory, uint8 parallelism, and byte salts and keys of any length |
| `PasswordHash.EncodedText` | internal/auth/password.go:58-65 | The text of an encoding, field by field |
| `PasswordHash.DecodeRefuses` | internal/auth/password.go:67-90 | What Decode refuses and in which order: the number of parts, another algorithm, another version, then each field |
| `PasswordHash.HashEncodesKey` | internal/auth/password.go:23-34 | Hash returns the encoding of a key of 32 bytes, or nothing where the derivation fails |
| `PasswordHash.EncodeIsInjective` | internal/auth/password.go:58-65 | Equal encodings have equal parameters, salt and key |
| `PasswordHash.VerifiesExactly` | internal/auth/password.go:23-51 | Verify accepts what Hash made for its password, and another password iff the same key is derived from it |
| `PasswordHash.SameTextSameKey` | internal/auth/password.go:23-34 | Two hashes are the same text only for the same salt, parameters and derived key |
| `PasswordHash.FirstSegmentIsIgnored` | internal/auth/password.go:67-71 | decode is not injective: any text without a dollar sign may stand before the first one |
| `PasswordHash.SegmentsOfEncoded` | internal/auth/password.go:58-71 | Splitting an encoding gives its six segments: no printed part contains a dollar sign |
| `PasswordHash.ParamsReadBack` | internal/auth/password.go:78-80 | Scanning printed parameters gives them back |
| `PasswordHash.NumberReadsBack` | internal/auth/password.go:78-80 | A printed number below the limit scans back, whatever non-digit follows |
| `Base64.DecodeEncode` | internal/auth/password.go:62-63 | Unpadded base64 decoding undoes encoding for all byte strings |
| `Base64.EncodeDecode` | internal/auth/password.go:81-88 | A decodable text is the encoding of its bytes iff it has no line break and its spare bits are zero |
| `Base64.EncodedIsPlain` | internal/auth/password.go:62-63 | Encoded text holds only alphabet characters, so no dollar sign and no line break |
| `Base64.QuadIsNumber` | internal/auth/password.go:62-63 | Three bytes and their four symbols stand for the same number, most significant part first |
| `Base64.AlphabetInOrder` | internal/auth/password.go:62-63 | The symbols are A to Z, a to z, 0 to 9, plus and slash, in this order |
| `Migrations.RecordedIsExecuted` | internal/db/migrate.go:22-105 | Over any schedule of failing or cut runs, over changing file sets, recorded is executed, each script once, and nothing executed is lost |
| `Migrations.InterruptedIsUninterrupted` | internal/db/migrate.go:22-62 | Over one file set the executed scripts are always a prefix of the sorted list; finished together, the runs equal one run, and running again changes nothing |
| `Migrations.FinishedExactly` | internal/db/migrate.go:55-62 | A run reports success iff afterwards every script was executed |
| `Migrations.ExecutedInOrderExactly` | internal/db/migrate.go:44-55 | With scripts added or removed between runs, they were executed in sorted order iff each run started past everything executed before it |
| `Migrations.LateScriptRunsLate` | internal/db/migrate.go:44-55 | A script added later but sorting earlier is executed later |
| `Migrations.RestIsPending` | internal/db/migrate.go:44-54 | After the first k scripts the pending list, sorted, is the rest of the sorted list |
| `Migrations.SortAscends` | internal/db/migrate.go:54 | Sorting distinct names gives the same names, each a proper prefix of the later ones or with the smaller character where they first differ |
| `Migrations.LessExactly` | internal/db/migrate.go:54 | The order is that of prefixes and first differing characters |
| `Migrations.RunInNumberOrder` | internal/db/migrate.go:54-60 | Of two scripts of one run whose names start with as many digits, the one with the smaller number is executed first |
| `Migrations.PendingExactly` | internal/db/migrate.go:44-53 | Pending are exactly the files named something.sql whose something is not recorded |
| `Migrations.Database.LoadApplied` | internal/db/migrate.go:64-79 | The set of recorded versions |
| `Migrations.Database.FindPending` | internal/db/migrate.go:44-53 | The filter loop finds exactly the unrecorded scripts |
| `Migrations.Database.ApplyOne` | internal/db/migrate.go:81-105 | One transaction: script and row, or neither |
| `Migrations.Database.Apply` | internal/db/migrate.go:22-62 | A run executes and records the pending scripts in the order of their names up to the first failure, and says whether it finished |
| `IssueBoard.ListedInOrder` | internal/db/issue.go:170-189 | In any listing after a reorder, two listed issues of the project stand in the order of their last places in the list |
| `IssueBoard.CoveringListIsTheOrder` | internal/db/issue.go:170-189 | A duplicate-free list that covers the project is the listing, without the ids that are not the project's |
| `IssueBoard.OwnIsAll` | internal/db/issue.go:170-180 | Nothing is left out of it exactly when every id of the list is the project's |
| `IssueBoard.OthersStay` | internal/db/issue.go:176-180 | Other projects and unlisted issues keep their row; only the order of a listed one changes |
| `IssueBoard.NewIssueIsLast` | internal/db/issue.go:46-50 | An issue created at MAX+1 is last in every listing, and the others keep theirs |
| `IssueBoard.ListingExists` | internal/db/issue.go:76-88 | Every project has a listing sorted by sort_order and created_at |
| `IssueBoard.ListedByOrderAndAge` | internal/db/issue.go:76-88 | A listing goes by sort order, and by creation time among equals |
| `IssueBoard.IssueTable.NextOrder` | internal/db/issue.go:46-50 | One more than the highest order of the project; 0 when it has no issues |
| `IssueBoard.IssueTable.CreateIssue` | internal/db/issue.go:26-63 | One new row, last in its project, or nothing when the insert is refused |
| `IssueBoard.IssueTable.ReorderIssues` | internal/db/issue.go:170-189 | The loop gives every listed issue of the project its last place in the list, or rolls everything back |

## Left out

- Database errors inside the managers' calls: in model A a statement either finds its row or not. A failed
  status update after a successful merge commit, which the source reports but cannot undo, is not modelled.
- Managers.AgentManager.StartAgent: overlapping Start calls on one workspace and concurrent Merge calls on one
  target are not interleaved statement by statement; each call is atomic.
- Runs.StatusWritesAreAllowed: calls are single steps; StopRace.StatusChangesExactly covers guards gone stale.
- Runs.TerminalUnlessLateDone: likewise; StopRace.TerminalChangesExactly is the statement over single accesses.
- Sessions.StepKeepsLive: Start, and the part of Stop before its cleanup, are single steps.
- Managers.WorkspaceManager.WorktreeAdd: worktree directories on disk are one yes-or-no answer, a base is a
  local branch of the repository, paths are joined without cleaning, and a failed command leaves no branch.
- Managers.WorkspaceManager.UpdateBranch: a commit left dangling by a failed update-ref is not kept.
- Managers.WorkspaceManager.CancelWorkspace: the worktree removal, whose failure is only logged, changes no
  row and no ref and is not shown; Cleanup and Diff likewise.
- Managers.AgentManager.Fail: the text of the adapter's own error, which the source appends to the cause.
- Managers.AgentManager.AddCost: token counts read from floating metadata outside the 64-bit range, and
  rounding of the dollar cost, are not modelled.
- Handoff.Subscribers.BroadcastItem: is one step; a subscriber leaving in the middle of the loop is not.
- Handoff.ReplayPersisted: the envelope of a replay frame: role, body, metadata and time.
- Handoff.EveryEventReachesTheClient: the socket itself, and events that cannot be encoded as JSON.
- Managers.AgentManager.DrainOne: subscribers are the list of what was handed to broadcast; their channels are in
  Handoff.
- MessageLog.MessageStore.CreateMessage: ids, creation times and the encoding of metadata.
- MessageLog.MessageStore.ScanMessages: a row or metadata that does not decode ends the scan with an error; rows
  here are as CreateMessage stored them.
- IssueBoard.IssueTable.CreateIssue: its two statements are one step; two concurrent calls could get the same
  order. Titles, tags and the other columns are not shown, nor UpdateIssue, whose builder has the shape of the
  workspace one.
- EventStream.LinesReadBack: the 4 MB line limit of the scanner and, for the standard, byte order marks and a
  lone carriage return as a line ending.
- OpenCode.OpenCodeAdapter.ConnectAndStream: prompts arriving while a stream is read are interleaved only in the
  lemmas over runs. The channel between emit and Stop, process spawning, HTTP and JSON decoding, which is any
  partial function here.
- FakeAdapters.FakeAdapter.SpawnAgent: delays, a cancelled spawn and the spawn signal channel.
- PasswordHash.VerifiesExactly: Argon2 is any function that derives keys of the asked length or panics; the
  random salt is a parameter; timing of the comparison.
- Base64.EncodeDecode: error positions; characters stand for bytes.
- Migrations.Database.Apply: an unreadable script and a failing statement are the same failure; what the SQL of
  a script does is its name in the history.
- FatalError and IsUserFacing, single-statement project, user, session and token queries, HTTP routing, cookies,
  configuration and logging: no property across functions.
