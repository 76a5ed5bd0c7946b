/** The shared state of model A: the database rows, the agent sessions and the git
    refs, with every call of the two managers as one atomic function of it
    (internal/agent/manager.go, internal/workspace/manager.go, internal/git). */
module World {
  import opened Wrappers
  import opened Status
  import opened WorkspaceRow
  import opened Events

  type Id = string
  type AdapterId = nat

  // ---- database ----

  datatype Project = Project(repoPath: string, defaultBranch: string)

  datatype LogEntry = LogEntry(workspaceId: Id, role: Role, content: string)

  /** One write of a status column, kept as history. */
  datatype StatusWrite = StatusWrite(id: Id, from: Status, to: Status)

  datatype Db = Db(
    clock: int,
    projects: map<string, Project>,
    rows: map<Id, Workspace>,
    issued: set<Id>,
    log: seq<LogEntry>,
    writes: seq<StatusWrite>)

  datatype Error =
    | NoError
    | WorkspaceNotFound
    | ProjectNotFound
    | InvalidTransition
    | NoWorktree
    | FactoryFailed
    | SpawnFailed
    | AlreadyActive
    | PromptFailed
    | NotActive
    | WorktreeAddFailed
    | MergeTreeFailed
    | UpdateBranchFailed

  function WriteLog(ws: Workspace, id: Id, p: Patch): seq<StatusWrite> {
    if p.status.Some? then [StatusWrite(id, ws.status, p.status.value)] else []
  }

  /** UpdateWorkspace; a missing row is ErrNotFound, which every caller here tolerates. */
  function Update(db: Db, id: Id, p: Patch): Db {
    if id !in db.rows then db
    else db.(rows := db.rows[id := Applied(p, db.rows[id], db.clock)],
             writes := db.writes + WriteLog(db.rows[id], id, p))
  }

  /** CreateMessage; the foreign key refuses messages of a missing workspace. */
  function AddMessage(db: Db, id: Id, role: Role, content: string): Db {
    if id !in db.rows then db else db.(log := db.log + [LogEntry(id, role, content)])
  }

  function StatusPatch(s: Status): Patch {
    NO_CHANGE.(status := Some(s))
  }

  function FinalPatch(s: Status, now: int): Patch {
    NO_CHANGE.(status := Some(s), completedAt := Some(now))
  }

  /** markFailed: forced from any non-terminal status. */
  function MarkFailed(db: Db, id: Id, cause: string): Db {
    if id !in db.rows || IsTerminal(db.rows[id].status) then db
    else AddMessage(Update(db, id, FinalPatch(Failed, db.clock)), id, System, "Workspace failed: " + cause)
  }

  // ---- agent sessions ----

  /** An adapter's event channel and the context of the drain that reads it. */
  datatype Adapter = Adapter(ws: Id, buf: seq<AgentEvent>, closed: bool, cancelled: bool, draining: bool)

  datatype Agents = Agents(sessions: map<Id, AdapterId>, adapters: map<AdapterId, Adapter>)

  function CancelContext(ag: Agents, aid: AdapterId): Agents {
    if aid !in ag.adapters then ag
    else ag.(adapters := ag.adapters[aid := ag.adapters[aid].(cancelled := true)])
  }

  function CloseChannel(ag: Agents, aid: AdapterId): Agents {
    if aid !in ag.adapters then ag
    else ag.(adapters := ag.adapters[aid := ag.adapters[aid].(closed := true)])
  }

  /** cleanupSession: forgets the workspace's session, whichever it is, and cancels it. */
  function CleanupSession(ag: Agents, id: Id): Agents {
    if id !in ag.sessions then ag
    else CancelContext(ag.(sessions := ag.sessions - {id}), ag.sessions[id])
  }

  // ---- git ----

  /** `mergedBy` is the workspace whose merge made the commit, None for the agents' own. */
  datatype Commit = Commit(parent: Option<nat>, mergedBy: Option<Id>)

  /** Commit ids are positions in `commits`; `refs` maps (repository, branch). */
  datatype Git = Git(root: string, slug: string -> string, commits: seq<Commit>, refs: map<(string, string), nat>)

  function AddCommit(git: Git, repo: string, branch: string, mergedBy: Option<Id>): Git
    requires (repo, branch) in git.refs
  {
    git.(commits := git.commits + [Commit(Some(git.refs[(repo, branch)]), mergedBy)],
         refs := git.refs[(repo, branch) := |git.commits|])
  }

  const BRANCH_PREFIX := "ctrlroom/"

  function BranchName(id: Id): string {
    BRANCH_PREFIX + if |id| > 8 then id[..8] else id
  }

  function WorktreePathFor(git: Git, repo: string, id: Id): string {
    git.root + "/" + git.slug(repo) + "/" + id
  }

  const MAX_AUTO_MERGE_ATTEMPTS := 2

  datatype MergeTree = TreeError | Clean | Conflict

  // ---- workspace.Manager ----

  predicate CanAddWorktree(git: Git, repo: string, id: Id, base: string, worktreeOk: bool) {
    (repo, BranchName(id)) !in git.refs && (repo, base) in git.refs && worktreeOk
  }

  function Prepare(db: Db, git: Git, id: Id, worktreeOk: bool): (Db, Git, Error) {
    if id !in db.rows then (db, git, WorkspaceNotFound)
    else
      var ws := db.rows[id];
      if ws.projectId !in db.projects then (db, git, ProjectNotFound)
      else if !CanTransition(ws.status, Preparing) then (db, git, InvalidTransition)
      else
        var proj := db.projects[ws.projectId];
        var preparing := Update(db, id, StatusPatch(Preparing));
        if !CanAddWorktree(git, proj.repoPath, id, proj.defaultBranch, worktreeOk) then
          (Update(preparing, id, StatusPatch(Failed)), git, WorktreeAddFailed)
        else
          var base := git.refs[(proj.repoPath, proj.defaultBranch)];
          var git' := git.(refs := git.refs[(proj.repoPath, BranchName(id)) := base]);
          var branched := preparing.(rows := preparing.rows[id := preparing.rows[id].(branch := BranchName(id))]);
          var patch := NO_CHANGE.(status := Some(Idle),
                                  worktreePath := Some(WorktreePathFor(git, proj.repoPath, id)),
                                  targetRef := Some(proj.defaultBranch));
          (Update(branched, id, patch), git', NoError)
  }

  function Cancel(db: Db, id: Id): (Db, Error) {
    if id !in db.rows then (db, WorkspaceNotFound)
    else if !CanTransition(db.rows[id].status, Cancelled) then (db, InvalidTransition)
    else (Update(db, id, StatusPatch(Cancelled)), NoError)
  }

  function Target(db: Db, ws: Workspace): string
    requires ws.projectId in db.projects
  {
    if ws.targetRef == "" then db.projects[ws.projectId].defaultBranch else ws.targetRef
  }

  predicate Mergeable(s: Status) {
    s == Completed || s == ResolvingConflict
  }

  function NextAttempt(ws: Workspace): int {
    if ws.pendingMerge.Some? then ws.pendingMerge.value.attempt + 1 else 1
  }

  /** The conflict path of Merge. */
  function Conflicted(db: Db, id: Id, target: string): (Db, Error)
    requires id in db.rows
  {
    var ws := db.rows[id];
    if NextAttempt(ws) <= MAX_AUTO_MERGE_ATTEMPTS then
      var pending := PendingMerge(target, NextAttempt(ws), MAX_AUTO_MERGE_ATTEMPTS);
      (Update(db, id, NO_CHANGE.(pendingMerge := Some(pending))), NoError)
    else if !CanTransition(ws.status, ConflictStuck) then (db, InvalidTransition)
    else (Update(db, id, NO_CHANGE.(status := Some(ConflictStuck), clearPendingMerge := true)), NoError)
  }

  function Merge(db: Db, git: Git, id: Id, tree: MergeTree, updateOk: bool): (Db, Git, Error) {
    if id !in db.rows then (db, git, WorkspaceNotFound)
    else
      var ws := db.rows[id];
      if !Mergeable(ws.status) then (db, git, InvalidTransition)
      else if ws.projectId !in db.projects then (db, git, ProjectNotFound)
      else
        var repo, target := db.projects[ws.projectId].repoPath, Target(db, ws);
        match tree
        case TreeError => (db, git, MergeTreeFailed)
        case Clean =>
          if (repo, target) !in git.refs || !updateOk then (db, git, UpdateBranchFailed)
          else
            (Update(db, id, NO_CHANGE.(status := Some(Merged), clearPendingMerge := true)),
             AddCommit(git, repo, target, Some(id)), NoError)
        case Conflict => var r := Conflicted(db, id, target); (r.0, git, r.1)
  }

  // ---- agent.Manager ----

  /** `aid` is the adapter the factory would make, fresh by construction. */
  function Start(db: Db, ag: Agents, id: Id, aid: AdapterId, prompt: string,
                 factoryOk: bool, spawnOk: bool, promptOk: bool): (Db, Agents, Error) {
    if id !in db.rows then (db, ag, WorkspaceNotFound)
    else if !CanTransition(db.rows[id].status, Running) then (db, ag, InvalidTransition)
    else if db.rows[id].worktreePath == "" then (db, ag, NoWorktree)
    else if !factoryOk then (db, ag, FactoryFailed)
    else if !spawnOk then (MarkFailed(db, id, "spawn"), ag, SpawnFailed)
    else
      var running := Update(db, id, NO_CHANGE.(status := Some(Running), startedAt := Some(db.clock)));
      if id in ag.sessions then
        var orphaned := ag.(adapters := ag.adapters[aid := Adapter(id, [], false, true, false)]);
        (running, CloseChannel(orphaned, ag.sessions[id]), AlreadyActive)
      else
        var ag' := ag.(sessions := ag.sessions[id := aid],
                       adapters := ag.adapters[aid := Adapter(id, [], false, false, promptOk)]);
        if !promptOk then (MarkFailed(running, id, "initial prompt"), CleanupSession(ag', id), PromptFailed)
        else (AddMessage(running, id, User, prompt), ag', NoError)
  }

  function SendPrompt(db: Db, ag: Agents, id: Id, prompt: string, promptOk: bool): (Db, Error) {
    if id !in ag.sessions then (db, NotActive)
    else if id !in db.rows then (db, WorkspaceNotFound)
    else if !CanTransition(db.rows[id].status, Running) then (db, InvalidTransition)
    else
      var running := Update(db, id, StatusPatch(Running));
      if !promptOk then (MarkFailed(running, id, "send prompt"), PromptFailed)
      else (AddMessage(running, id, User, prompt), NoError)
  }

  function CancelIfLive(db: Db, id: Id): Db {
    if id in db.rows && !IsTerminal(db.rows[id].status) && CanTransition(db.rows[id].status, Cancelled)
    then Update(db, id, FinalPatch(Cancelled, db.clock))
    else db
  }

  /** Stop: the context is cancelled before the channel is closed; no session, no effect. */
  function Stop(db: Db, ag: Agents, id: Id): (Db, Agents) {
    if id !in ag.sessions then (db, ag)
    else
      var stopped := CloseChannel(CancelContext(ag, ag.sessions[id]), ag.sessions[id]);
      (CancelIfLive(db, id), CleanupSession(stopped, id))
  }

  function Complete(db: Db, id: Id): (Db, Error) {
    if id !in db.rows then (db, WorkspaceNotFound)
    else if db.rows[id].status == Completed then (db, NoError)
    else if !CanTransition(db.rows[id].status, Completed) then (db, InvalidTransition)
    else (Update(db, id, FinalPatch(Completed, db.clock)), NoError)
  }

  function CostPatch(ws: Workspace, c: Cost): Patch {
    NO_CHANGE.(tokensIn := Some(Wrap64(ws.tokensIn + c.tokensIn)),
               tokensOut := Some(Wrap64(ws.tokensOut + c.tokensOut)),
               costUsd := Some(ws.costUsd + c.costUsd))
  }

  /** applyCost, read and write in one step. */
  function ApplyCost(db: Db, id: Id, ev: AgentEvent): Db {
    if CostOf(ev).None? || id !in db.rows then db
    else Update(db, id, CostPatch(db.rows[id], CostOf(ev).value))
  }

  function HandleTerminal(db: Db, id: Id, ev: AgentEvent): Db {
    match DoneReasonOf(ev)
    case TurnComplete => Update(db, id, StatusPatch(AwaitingInput))
    case Stopped => db
    case ErrorReason => MarkFailed(db, id, "agent: error")
    case ProcessExit => MarkFailed(db, id, "agent: process_exit")
    case OtherReason(text) => MarkFailed(db, id, "agent: unknown reason " + text)
  }

  /** One event of the drain: under a cancelled context nothing is persisted, but a
      done event still reaches handleTerminal, which runs under its own context. */
  function HandleEvent(db: Db, id: Id, ev: AgentEvent, cancelled: bool): Db {
    var handled := if cancelled then db else ApplyCost(AddMessage(db, id, MessageRole(ev), ev.content), id, ev);
    if IsTerminalEvent(ev) then HandleTerminal(handled, id, ev) else handled
  }

  predicate Draining(ag: Agents, aid: AdapterId) {
    aid in ag.adapters && ag.adapters[aid].draining
  }

  function DrainEvent(db: Db, ag: Agents, aid: AdapterId): (Db, Agents)
    requires Draining(ag, aid) && ag.adapters[aid].buf != []
  {
    var a := ag.adapters[aid];
    (HandleEvent(db, a.ws, a.buf[0], a.cancelled), ag.(adapters := ag.adapters[aid := a.(buf := a.buf[1..])]))
  }

  function DrainExit(ag: Agents, aid: AdapterId): Agents
    requires Draining(ag, aid)
  {
    CleanupSession(ag.(adapters := ag.adapters[aid := ag.adapters[aid].(draining := false)]), ag.adapters[aid].ws)
  }

  /** The channel was closed: a failure, unless the status read fails because the
      context is cancelled. */
  function DrainClosed(db: Db, ag: Agents, aid: AdapterId): (Db, Agents)
    requires Draining(ag, aid)
  {
    var a := ag.adapters[aid];
    (if a.cancelled then db else MarkFailed(db, a.ws, "agent stream closed unexpectedly"), DrainExit(ag, aid))
  }

  // ---- sweep.go ----

  /** The five statuses in the sweep's query. */
  predicate AgentDependent(s: Status) {
    s == Running || s == Preparing || s == AwaitingInput || s == ResolvingConflict || s == AwaitingApproval
  }

  const SWEEP_NOTE := "Server was restarted while this workspace was active; agent session lost."

  function SweepOne(db: Db, id: Id): Db {
    AddMessage(Update(db, id, FinalPatch(Failed, db.clock)), id, System, SWEEP_NOTE)
  }

  function SweepIds(db: Db, ids: seq<Id>): Db {
    if ids == [] then db else SweepOne(SweepIds(db, ids[..|ids| - 1]), ids[|ids| - 1])
  }

  /** A result of the sweep's query: the agent-dependent rows, once each, in any order. */
  ghost predicate IsActiveQuery(db: Db, ids: seq<Id>) {
    && (forall i, j :: 0 <= i < j < |ids| ==> ids[i] != ids[j])
    && (forall id :: id in ids <==> id in db.rows && AgentDependent(db.rows[id].status))
  }

  // ---- runs of model A ----

  datatype World = World(db: Db, agents: Agents, git: Git)

  datatype Action =
    | Tick(now: int)
    | NewProject(pid: string, project: Project)
    | SetDefaultBranch(pid: string, branch: string)
    | DropProject(pid: string)
    | NewWorkspace(id: Id, pid: string, agentType: string)
    | PrepareWs(id: Id, worktreeOk: bool)
    | StartWs(id: Id, aid: AdapterId, prompt: string, factoryOk: bool, spawnOk: bool, promptOk: bool)
    | PromptWs(id: Id, prompt: string, promptOk: bool)
    | StopWs(id: Id)
    | CompleteWs(id: Id)
    | CancelWs(id: Id)
    | MergeWs(id: Id, tree: MergeTree, updateOk: bool)
    | Emit(aid: AdapterId, ev: AgentEvent)
    | CloseStream(aid: AdapterId)
    | TakeEvent(aid: AdapterId)
    | TakeClosed(aid: AdapterId)
    | TakeCancelled(aid: AdapterId)
    | AgentCommits(repo: string, branch: string)
    | Restart(ids: seq<Id>)

  function FreshRow(pid: string, agentType: string, now: int): Workspace {
    Workspace(pid, "", agentType, "", Queued, None, "", "", None, false, 0, 0, 0.0, None, None, now)
  }

  function Insert(db: Db, id: Id, pid: string, agentType: string): Db {
    db.(rows := db.rows[id := FreshRow(pid, agentType, db.clock)], issued := db.issued + {id})
  }

  /** The cascade of a project's deletion. */
  function RemoveProject(db: Db, pid: string): Db {
    db.(projects := db.projects - {pid},
        rows := map id | id in db.rows && db.rows[id].projectId != pid :: db.rows[id])
  }

  /** When a step can be taken; the rest are calls that may come at any time. */
  ghost predicate Enabled(w: World, a: Action) {
    match a
    case NewProject(pid, _) => pid !in w.db.projects
    case NewWorkspace(id, pid, _) => id !in w.db.issued && pid in w.db.projects
    case SetDefaultBranch(pid, _) => pid in w.db.projects
    case StartWs(_, aid, _, _, _, _) => aid !in w.agents.adapters
    case Emit(aid, _) => aid in w.agents.adapters && !w.agents.adapters[aid].closed
      && |w.agents.adapters[aid].buf| < CHANNEL_CAP
    case CloseStream(aid) => aid in w.agents.adapters
    case TakeEvent(aid) => Draining(w.agents, aid) && w.agents.adapters[aid].buf != []
    case TakeClosed(aid) => Draining(w.agents, aid) && w.agents.adapters[aid].buf == [] && w.agents.adapters[aid].closed
    case TakeCancelled(aid) => Draining(w.agents, aid) && w.agents.adapters[aid].cancelled
    case AgentCommits(repo, branch) => (repo, branch) in w.git.refs
    case Restart(ids) => IsActiveQuery(w.db, ids)
    case _ => true
  }

  function Step(w: World, a: Action): World
    requires Enabled(w, a)
  {
    var db, ag, git := w.db, w.agents, w.git;
    match a
    case Tick(now) => w.(db := db.(clock := now))
    case NewProject(pid, project) => w.(db := db.(projects := db.projects[pid := project]))
    case SetDefaultBranch(pid, branch) =>
      w.(db := db.(projects := db.projects[pid := db.projects[pid].(defaultBranch := branch)]))
    case DropProject(pid) => w.(db := RemoveProject(db, pid))
    case NewWorkspace(id, pid, agentType) => w.(db := Insert(db, id, pid, agentType))
    case PrepareWs(id, ok) => var r := Prepare(db, git, id, ok); w.(db := r.0, git := r.1)
    case StartWs(id, aid, prompt, fOk, sOk, pOk) =>
      var r := Start(db, ag, id, aid, prompt, fOk, sOk, pOk); w.(db := r.0, agents := r.1)
    case PromptWs(id, prompt, ok) => w.(db := SendPrompt(db, ag, id, prompt, ok).0)
    case StopWs(id) => var r := Stop(db, ag, id); w.(db := r.0, agents := r.1)
    case CompleteWs(id) => w.(db := Complete(db, id).0)
    case CancelWs(id) => w.(db := Cancel(db, id).0)
    case MergeWs(id, tree, ok) => var r := Merge(db, git, id, tree, ok); w.(db := r.0, git := r.1)
    case Emit(aid, ev) =>
      w.(agents := ag.(adapters := ag.adapters[aid := ag.adapters[aid].(buf := ag.adapters[aid].buf + [ev])]))
    case CloseStream(aid) => w.(agents := CloseChannel(ag, aid))
    case TakeEvent(aid) => var r := DrainEvent(db, ag, aid); w.(db := r.0, agents := r.1)
    case TakeClosed(aid) => var r := DrainClosed(db, ag, aid); w.(db := r.0, agents := r.1)
    case TakeCancelled(aid) => w.(agents := DrainExit(ag, aid))
    case AgentCommits(repo, branch) => w.(git := AddCommit(git, repo, branch, None))
    case Restart(ids) => w.(db := SweepIds(db, ids), agents := Agents(map[], map[]))
  }

  /** A run: every action is enabled where it is taken. */
  ghost predicate IsRun(w: World, acts: seq<Action>) {
    acts == [] || (IsRun(w, acts[..|acts| - 1]) && Enabled(After(w, acts[..|acts| - 1]), acts[|acts| - 1]))
  }

  ghost function After(w: World, acts: seq<Action>): World {
    if acts == [] then w
    else
      var before := After(w, acts[..|acts| - 1]);
      if Enabled(before, acts[|acts| - 1]) then Step(before, acts[|acts| - 1]) else before
  }

  /** A freshly migrated server over existing repositories. */
  ghost predicate Initial(w: World) {
    && w.db.rows == map[] && w.db.issued == {} && w.db.log == [] && w.db.writes == []
    && w.agents == Agents(map[], map[])
    && ValidGit(w.git)
    && (forall c :: c in w.git.commits ==> c.mergedBy == None)
  }

  ghost predicate ValidGit(git: Git) {
    && (forall repo :: |git.slug(repo)| == 12)
    && (forall i :: 0 <= i < |git.commits| && git.commits[i].parent.Some? ==> git.commits[i].parent.value < i)
    && (forall key :: key in git.refs ==> git.refs[key] < |git.commits|)
  }
}
