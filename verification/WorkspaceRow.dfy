/** The workspaces table: one record per row, the partial-update patch, and the
    SQL text it is compiled to (internal/db/workspace.go). */
module WorkspaceRow {
  import opened Wrappers
  import opened Status

  datatype PendingMerge = PendingMerge(target: string, attempt: int, maxAttempts: int)

  datatype Workspace = Workspace(
    projectId: string,
    branch: string,
    agentType: string,
    model: string,
    status: Status,
    processPid: Option<int>,
    worktreePath: string,
    targetRef: string,
    pendingMerge: Option<PendingMerge>,
    orchestrator: bool,
    tokensIn: int,
    tokensOut: int,
    costUsd: real,
    startedAt: Option<int>,
    completedAt: Option<int>,
    updatedAt: int)

  /** WorkspaceUpdatePatch: None means "leave the column alone". */
  datatype Patch = Patch(
    status: Option<Status>,
    worktreePath: Option<string>,
    targetRef: Option<string>,
    pendingMerge: Option<PendingMerge>,
    clearPendingMerge: bool,
    processPid: Option<int>,
    model: Option<string>,
    startedAt: Option<int>,
    completedAt: Option<int>,
    tokensIn: Option<int>,
    tokensOut: Option<int>,
    costUsd: Option<real>,
    orchestrator: Option<bool>)

  const NO_CHANGE := Patch(None, None, None, None, false, None, None, None, None, None, None, None, None)

  function OrKeep<T>(change: Option<T>, current: T): T {
    if change.Some? then change.value else current
  }

  /** What a patch means: named columns take the patch's value, clearing the
      pending merge wins over setting it, updated_at is always touched. */
  function Applied(p: Patch, ws: Workspace, now: int): Workspace {
    ws.(
      status := OrKeep(p.status, ws.status),
      worktreePath := OrKeep(p.worktreePath, ws.worktreePath),
      targetRef := OrKeep(p.targetRef, ws.targetRef),
      pendingMerge := if p.clearPendingMerge then None else if p.pendingMerge.Some? then p.pendingMerge
        else ws.pendingMerge,
      processPid := if p.processPid.Some? then p.processPid else ws.processPid,
      model := OrKeep(p.model, ws.model),
      startedAt := if p.startedAt.Some? then p.startedAt else ws.startedAt,
      completedAt := if p.completedAt.Some? then p.completedAt else ws.completedAt,
      tokensIn := OrKeep(p.tokensIn, ws.tokensIn),
      tokensOut := OrKeep(p.tokensOut, ws.tokensOut),
      costUsd := OrKeep(p.costUsd, ws.costUsd),
      orchestrator := OrKeep(p.orchestrator, ws.orchestrator),
      updatedAt := now)
  }
}
