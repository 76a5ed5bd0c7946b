/** Model A: the invariant of every run. Sessions belong to workspaces past setup, rows and
    their status history agree, prepared workspaces have their own branch and path, and the
    merge commits are the transitions to merged; each step of the model keeps all of it and
    writes only allowed statuses. */
module ModelA {
  import opened Wrappers
  import opened Status
  import opened WorkspaceRow
  import opened World
  import opened Lifecycle

  // ---- the invariant ----

  /** Adapters exist only for workspaces past setup, and each session names one of
      its own workspace's adapters. */
  ghost predicate SessionsOk(db: Db, ag: Agents) {
    && (forall id :: id in ag.sessions ==> ag.sessions[id] in ag.adapters && ag.adapters[ag.sessions[id]].ws == id)
    && (forall aid :: aid in ag.adapters ==> PastSetup(db, ag.adapters[aid].ws))
  }

  predicate PastSetup(db: Db, id: Id) {
    id in db.issued && (id in db.rows ==> !InSetup(db.rows[id].status))
  }

  function RepoOf(db: Db, id: Id): string
    requires id in db.rows && db.rows[id].projectId in db.projects
  {
    db.projects[db.rows[id].projectId].repoPath
  }

  predicate Prepared(db: Db, id: Id) {
    id in db.rows && db.rows[id].worktreePath != ""
  }

  /** A prepared row carries the names derived from its id, and its branch exists. */
  ghost predicate NamesOk(db: Db, git: Git) {
    && (forall id :: id in db.rows ==> db.rows[id].projectId in db.projects)
    && (forall id :: id in db.rows && db.rows[id].status == Idle ==> Prepared(db, id))
    && (forall id :: Prepared(db, id) ==>
          && db.rows[id].worktreePath == WorktreePathFor(git, RepoOf(db, id), id)
          && db.rows[id].branch == BranchName(id)
          && (RepoOf(db, id), BranchName(id)) in git.refs)
    && (forall id, other ::
          Prepared(db, id) && Prepared(db, other) && id != other && RepoOf(db, id) == RepoOf(db, other) ==>
          BranchName(id) != BranchName(other))
  }

  function MergedBy(commits: seq<Commit>): seq<Id> {
    if commits == [] then []
    else
      var last := commits[|commits| - 1];
      MergedBy(commits[..|commits| - 1]) + if last.mergedBy.Some? then [last.mergedBy.value] else []
  }

  ghost predicate RowsOk(db: Db) {
    forall id :: id in db.rows ==> RowOk(db.rows[id])
  }

  ghost predicate Inv(w: World) {
    && SessionsOk(w.db, w.agents)
    && RowsOk(w.db)
    && HistoryOk(w.db)
    && NamesOk(w.db, w.git)
    && ValidGit(w.git)
    && MergedBy(w.git.commits) == MergedWrites(w.db.writes)
  }

  // ---- steps that only evolve the database ----

  lemma SessionsSurvive(db: Db, db': Db, ag: Agents, turn: Option<Id>)
    requires SessionsOk(db, ag) && Evolves(db, db', turn)
    ensures SessionsOk(db', ag)
  {
    forall aid | aid in ag.adapters ensures PastSetup(db', ag.adapters[aid].ws) {
      assert PastSetup(db, ag.adapters[aid].ws);
    }
  }

  lemma NamesSurvive(db: Db, db': Db, git: Git, turn: Option<Id>)
    requires NamesOk(db, git) && Evolves(db, db', turn)
    ensures NamesOk(db', git)
  {
    forall id | Prepared(db', id) ensures Prepared(db, id) && RepoOf(db', id) == RepoOf(db, id) {
      assert RowEvolves(db.rows[id], db'.rows[id]);
    }
  }

  lemma EvolvingKeepsInv(w: World, db': Db, turn: Option<Id>)
    requires Inv(w) && Evolves(w.db, db', turn)
    ensures Inv(w.(db := db'))
  {
    SessionsSurvive(w.db, db', w.agents, turn);
    NamesSurvive(w.db, db', w.git, turn);
    forall id | id in db'.rows ensures RowOk(db'.rows[id]) {
      assert RowEvolves(w.db.rows[id], db'.rows[id]);
    }
  }

  // ---- agent steps ----

  lemma CleanupKeeps(db: Db, ag: Agents, id: Id)
    requires SessionsOk(db, ag)
    ensures SessionsOk(db, CleanupSession(ag, id))
    ensures id !in CleanupSession(ag, id).sessions
  {
  }

  /** A new adapter of a workspace past setup, with or without a session naming it. */
  lemma NewAdapterKeeps(db: Db, ag: Agents, aid: AdapterId, a: Adapter)
    requires SessionsOk(db, ag) && aid !in ag.adapters && PastSetup(db, a.ws)
    ensures SessionsOk(db, ag.(adapters := ag.adapters[aid := a]))
    ensures SessionsOk(db, ag.(sessions := ag.sessions[a.ws := aid], adapters := ag.adapters[aid := a]))
  {
  }

  lemma ChannelKeeps(db: Db, ag: Agents, aid: AdapterId)
    requires SessionsOk(db, ag)
    ensures SessionsOk(db, CloseChannel(ag, aid)) && SessionsOk(db, CancelContext(ag, aid))
  {
  }

  lemma StartKeeps(db: Db, ag: Agents, id: Id, aid: AdapterId, prompt: string, f: bool, s: bool, p: bool)
    requires SessionsOk(db, ag) && HistoryOk(db) && aid !in ag.adapters
    ensures var r := Start(db, ag, id, aid, prompt, f, s, p); SessionsOk(r.0, r.1)
  {
    var r := Start(db, ag, id, aid, prompt, f, s, p);
    StartEvolves(db, ag, id, aid, prompt, f, s, p);
    SessionsSurvive(db, r.0, ag, None);
    if r.1 != ag {
      StartsRunning(db, ag, id, aid, prompt, f, s, p);
      var orphan, adapter := Adapter(id, [], false, true, false), Adapter(id, [], false, false, p);
      NewAdapterKeeps(r.0, ag, aid, orphan);
      NewAdapterKeeps(r.0, ag, aid, adapter);
      if id in ag.sessions {
        ChannelKeeps(r.0, ag.(adapters := ag.adapters[aid := orphan]), ag.sessions[id]);
      } else {
        CleanupKeeps(r.0, ag.(sessions := ag.sessions[id := aid], adapters := ag.adapters[aid := adapter]), id);
      }
    }
  }

  lemma StartsRunning(db: Db, ag: Agents, id: Id, aid: AdapterId, prompt: string, f: bool, s: bool, p: bool)
    requires Start(db, ag, id, aid, prompt, f, s, p).1 != ag
    ensures var db' := Start(db, ag, id, aid, prompt, f, s, p).0; id in db'.rows && !InSetup(db'.rows[id].status)
  {
  }

  lemma StopKeeps(db: Db, ag: Agents, id: Id)
    requires SessionsOk(db, ag)
    ensures var r := Stop(db, ag, id); SessionsOk(r.0, r.1) && id !in r.1.sessions
  {
    StopEvolves(db, id);
    SessionsSurvive(db, CancelIfLive(db, id), ag, None);
    if id in ag.sessions {
      CleanupKeeps(CancelIfLive(db, id), CloseChannel(CancelContext(ag, ag.sessions[id]), ag.sessions[id]), id);
    }
  }

  lemma DrainExitKeeps(db: Db, ag: Agents, aid: AdapterId)
    requires SessionsOk(db, ag) && Draining(ag, aid)
    ensures SessionsOk(db, DrainExit(ag, aid))
  {
    CleanupKeeps(db, ag.(adapters := ag.adapters[aid := ag.adapters[aid].(draining := false)]), ag.adapters[aid].ws);
  }

  // ---- git ----

  ghost predicate IsAncestor(commits: seq<Commit>, a: nat, c: nat)
    decreases c
  {
    c < |commits| && (a == c || (commits[c].parent.Some? && commits[c].parent.value < c
                                  && IsAncestor(commits, a, commits[c].parent.value)))
  }

  /** History only grows: commits are kept and every branch's earlier tip is an ancestor. */
  ghost predicate GitGrows(git: Git, git': Git) {
    && git'.root == git.root && git'.slug == git.slug
    && |git.commits| <= |git'.commits| && git'.commits[..|git.commits|] == git.commits
    && (forall key :: key in git.refs ==> key in git'.refs && IsAncestor(git'.commits, git.refs[key], git'.refs[key]))
  }

  lemma {:induction false} AncestorInLonger(commits: seq<Commit>, longer: seq<Commit>, a: nat, c: nat)
    requires |commits| <= |longer| && longer[..|commits|] == commits && IsAncestor(commits, a, c)
    ensures IsAncestor(longer, a, c)
    decreases c
  {
    assert longer[..|commits|][c] == longer[c];
    if a != c {
      AncestorInLonger(commits, longer, a, commits[c].parent.value);
    }
  }

  lemma {:induction false} AncestorTransitive(commits: seq<Commit>, a: nat, b: nat, c: nat)
    requires IsAncestor(commits, a, b) && IsAncestor(commits, b, c)
    ensures IsAncestor(commits, a, c)
    decreases c
  {
    if b != c {
      AncestorTransitive(commits, a, b, commits[c].parent.value);
    }
  }

  lemma GrowthIsTransitive(a: Git, b: Git, c: Git)
    requires GitGrows(a, b) && GitGrows(b, c)
    ensures GitGrows(a, c)
  {
    assert c.commits[..|a.commits|] == c.commits[..|b.commits|][..|a.commits|];
    forall key | key in a.refs ensures key in c.refs && IsAncestor(c.commits, a.refs[key], c.refs[key]) {
      AncestorInLonger(b.commits, c.commits, a.refs[key], b.refs[key]);
      AncestorTransitive(c.commits, a.refs[key], b.refs[key], c.refs[key]);
    }
  }

  lemma CommitGrows(git: Git, repo: string, branch: string, mergedBy: Option<Id>)
    requires ValidGit(git) && (repo, branch) in git.refs
    ensures var git' := AddCommit(git, repo, branch, mergedBy);
            && ValidGit(git') && GitGrows(git, git')
            && MergedBy(git'.commits) == MergedBy(git.commits) + if mergedBy.Some? then [mergedBy.value] else []
  {
    var git' := AddCommit(git, repo, branch, mergedBy);
    assert git'.commits[..|git.commits|] == git.commits;
    var tip := git.refs[(repo, branch)];
    assert IsAncestor(git'.commits, tip, tip);
    assert IsAncestor(git'.commits, tip, |git.commits|);
  }

  // ---- Prepare and Merge ----

  lemma MergedWritesAppend(writes: seq<StatusWrite>, more: seq<StatusWrite>)
    requires |more| <= 1
    ensures MergedWrites(writes + more) ==
      MergedWrites(writes) + if more != [] && more[0].to == Merged then [more[0].id] else []
  {
    if more != [] {
      assert (writes + more)[..|writes|] == writes;
    } else {
      assert writes + more == writes;
    }
  }

  /** The rows after worktree, branch and target have been stored. */
  function Placed(db: Db, git: Git, id: Id, proj: Project): Db
    requires id in db.rows
  {
    var branched := db.(rows := db.rows[id := db.rows[id].(branch := BranchName(id))]);
    Update(branched, id, NO_CHANGE.(status := Some(Idle),
                                    worktreePath := Some(WorktreePathFor(git, proj.repoPath, id)),
                                    targetRef := Some(proj.defaultBranch)))
  }

  lemma BranchedRows(db: Db, id: Id)
    requires HistoryOk(db) && RowsOk(db) && id in db.rows
    ensures var branched := db.(rows := db.rows[id := db.rows[id].(branch := BranchName(id))]);
            HistoryOk(branched) && RowsOk(branched)
  {
  }

  lemma PlacedRows(db: Db, git: Git, id: Id, proj: Project)
    requires HistoryOk(db) && RowsOk(db) && id in db.rows && db.rows[id].status == Preparing
    ensures var db' := Placed(db, git, id, proj);
            && WritesGrow(db, db', None) && HistoryOk(db') && RowsOk(db')
            && MergedWrites(db'.writes) == MergedWrites(db.writes)
  {
    var branched := db.(rows := db.rows[id := db.rows[id].(branch := BranchName(id))]);
    var patch := NO_CHANGE.(status := Some(Idle),
                            worktreePath := Some(WorktreePathFor(git, proj.repoPath, id)),
                            targetRef := Some(proj.defaultBranch));
    BranchedRows(db, id);
    UpdateWrites(branched, id, patch, None);
    MergedWritesAppend(db.writes, WriteLog(branched.rows[id], id, patch));
  }

  lemma PlacedNames(db: Db, git: Git, id: Id, proj: Project)
    requires NamesOk(db, git) && id in db.rows && proj == db.projects[db.rows[id].projectId]
    requires (proj.repoPath, BranchName(id)) !in git.refs
    ensures NamesOk(Placed(db, git, id, proj), git.(refs := git.refs[(proj.repoPath, BranchName(id)) := 0]))
  {
    var db', git' := Placed(db, git, id, proj), git.(refs := git.refs[(proj.repoPath, BranchName(id)) := 0]);
    forall other | Prepared(db', other)
      ensures RepoOf(db', other) == RepoOf(db, other)
      ensures other != id ==> Prepared(db, other) && db'.rows[other] == db.rows[other]
    {
    }
    assert !Prepared(db, id);
  }

  lemma PlacedSessions(db: Db, git: Git, ag: Agents, id: Id, proj: Project)
    requires SessionsOk(db, ag) && id in db.rows && db.rows[id].status == Preparing
    ensures SessionsOk(Placed(db, git, id, proj), ag)
  {
    var db' := Placed(db, git, id, proj);
    forall aid | aid in ag.adapters ensures PastSetup(db', ag.adapters[aid].ws) {
      assert PastSetup(db, ag.adapters[aid].ws);
    }
  }

  lemma PreparingEvolves(db: Db, id: Id)
    requires id in db.rows && CanTransition(db.rows[id].status, Preparing)
    ensures Evolves(db, Update(db, id, StatusPatch(Preparing)), None)
  {
    UpdateEvolves(db, id, StatusPatch(Preparing), None);
  }

  lemma PreparingKeeps(w: World, id: Id)
    requires Inv(w) && id in w.db.rows && CanTransition(w.db.rows[id].status, Preparing)
    ensures var preparing := Update(w.db, id, StatusPatch(Preparing));
            Inv(w.(db := preparing)) && WritesGrow(w.db, preparing, None)
  {
    PreparingEvolves(w.db, id);
    EvolvingKeepsInv(w, Update(w.db, id, StatusPatch(Preparing)), None);
  }

  lemma PrepareFails(w: World, id: Id)
    requires Inv(w) && id in w.db.rows && w.db.rows[id].status == Preparing
    ensures var failed := Update(w.db, id, StatusPatch(Failed));
            Inv(w.(db := failed)) && WritesGrow(w.db, failed, None)
  {
    UpdateEvolves(w.db, id, StatusPatch(Failed), None);
    EvolvingKeepsInv(w, Update(w.db, id, StatusPatch(Failed)), None);
  }

  lemma NothingKeeps(w: World)
    requires Inv(w)
    ensures WritesGrow(w.db, w.db, None) && GitGrows(w.git, w.git)
  {
  }

  lemma PrepareKeeps(w: World, id: Id, ok: bool)
    requires Inv(w)
    ensures var r := Prepare(w.db, w.git, id, ok);
            && Inv(World(r.0, w.agents, r.1)) && WritesGrow(w.db, r.0, None) && GitGrows(w.git, r.1)
  {
    var r := Prepare(w.db, w.git, id, ok);
    NothingKeeps(w);
    if id in w.db.rows && w.db.rows[id].projectId in w.db.projects && CanTransition(w.db.rows[id].status, Preparing) {
      var proj := w.db.projects[w.db.rows[id].projectId];
      var preparing := World(Update(w.db, id, StatusPatch(Preparing)), w.agents, w.git);
      PreparingKeeps(w, id);
      if CanAddWorktree(w.git, proj.repoPath, id, proj.defaultBranch, ok) {
        PrepareSucceeds(preparing, id, proj);
      } else {
        PrepareFails(preparing, id);
      }
      WritesGrowTransitively(w.db, preparing.db, r.0, None);
    }
  }

  lemma PrepareSucceeds(w: World, id: Id, proj: Project)
    requires Inv(w) && id in w.db.rows && w.db.rows[id].status == Preparing
    requires w.db.rows[id].projectId in w.db.projects && proj == w.db.projects[w.db.rows[id].projectId]
    requires CanAddWorktree(w.git, proj.repoPath, id, proj.defaultBranch, true)
    ensures var base := w.git.refs[(proj.repoPath, proj.defaultBranch)];
            var git' := w.git.(refs := w.git.refs[(proj.repoPath, BranchName(id)) := base]);
            var db' := Placed(w.db, w.git, id, proj);
            Inv(World(db', w.agents, git')) && WritesGrow(w.db, db', None) && GitGrows(w.git, git')
  {
    PlacedRows(w.db, w.git, id, proj);
    PlacedNames(w.db, w.git, id, proj);
    PlacedSessions(w.db, w.git, w.agents, id, proj);
    BranchGrows(w.git, (proj.repoPath, BranchName(id)), w.git.refs[(proj.repoPath, proj.defaultBranch)]);
    NamesAnyTip(Placed(w.db, w.git, id, proj), w.git, (proj.repoPath, BranchName(id)), 0,
                w.git.refs[(proj.repoPath, proj.defaultBranch)]);
  }

  lemma BranchGrows(git: Git, key: (string, string), tip: nat)
    requires ValidGit(git) && key !in git.refs && tip < |git.commits|
    ensures var git' := git.(refs := git.refs[key := tip]); ValidGit(git') && GitGrows(git, git')
  {
  }

  /** NamesOk asks that a branch exists, not where it points. */
  lemma NamesAnyTip(db: Db, git: Git, key: (string, string), a: nat, b: nat)
    requires NamesOk(db, git.(refs := git.refs[key := a]))
    ensures NamesOk(db, git.(refs := git.refs[key := b]))
  {
  }

  lemma WritesGrowTransitively(a: Db, b: Db, c: Db, turn: Option<Id>)
    requires WritesGrow(a, b, turn) && WritesGrow(b, c, turn)
    ensures WritesGrow(a, c, turn)
  {
    assert c.writes[..|a.writes|] == c.writes[..|b.writes|][..|a.writes|];
    forall i | |a.writes| <= i < |c.writes| ensures Allowed(c.writes[i], turn) {
      if i < |b.writes| {
        assert c.writes[i] == c.writes[..|b.writes|][i];
      }
    }
  }

  /** A patch Merge applies to a mergeable row: no place column, no setup status. */
  predicate MergePatch(db: Db, id: Id, p: Patch) {
    && id in db.rows && Mergeable(db.rows[id].status)
    && p.worktreePath.None? && p.targetRef.None?
    && (p.status.None? || (CanTransition(db.rows[id].status, p.status.value) && !InSetup(p.status.value)))
    && RowOk(Applied(p, db.rows[id], db.clock))
  }

  lemma MergePatchNames(db: Db, git: Git, id: Id, p: Patch)
    requires NamesOk(db, git) && MergePatch(db, id, p)
    ensures NamesOk(Update(db, id, p), git)
  {
    var db' := Update(db, id, p);
    forall other | Prepared(db', other) ensures Prepared(db, other) && RepoOf(db', other) == RepoOf(db, other) {
    }
  }

  lemma MergePatchHistory(db: Db, id: Id, p: Patch)
    requires HistoryOk(db) && MergePatch(db, id, p)
    ensures var db' := Update(db, id, p);
            && HistoryOk(db') && WritesGrow(db, db', None)
            && MergedWrites(db'.writes) == MergedWrites(db.writes) + if p.status == Some(Merged) then [id] else []
  {
    UpdateWrites(db, id, p, None);
    MergedWritesAppend(db.writes, WriteLog(db.rows[id], id, p));
  }

  lemma MergePatchSessions(db: Db, ag: Agents, id: Id, p: Patch)
    requires RowsOk(db) && SessionsOk(db, ag) && MergePatch(db, id, p)
    ensures var db' := Update(db, id, p); RowsOk(db') && SessionsOk(db', ag)
  {
    var db' := Update(db, id, p);
    forall aid | aid in ag.adapters ensures PastSetup(db', ag.adapters[aid].ws) {
      assert PastSetup(db, ag.adapters[aid].ws);
    }
  }

  /** What an accepted merge writes to the row. */
  function MergeOutcome(db: Db, id: Id, tree: MergeTree): Patch
    requires id in db.rows && db.rows[id].projectId in db.projects
  {
    var ws := db.rows[id];
    if tree.Clean? then NO_CHANGE.(status := Some(Merged), clearPendingMerge := true)
    else if NextAttempt(ws) <= MAX_AUTO_MERGE_ATTEMPTS then
      NO_CHANGE.(pendingMerge := Some(PendingMerge(Target(db, ws), NextAttempt(ws), MAX_AUTO_MERGE_ATTEMPTS)))
    else NO_CHANGE.(status := Some(ConflictStuck), clearPendingMerge := true)
  }

  /** When a call of Merge changes anything. */
  predicate MergeAccepted(db: Db, git: Git, id: Id, tree: MergeTree, ok: bool) {
    && id in db.rows && Mergeable(db.rows[id].status) && db.rows[id].projectId in db.projects
    && (tree.Conflict? || (tree.Clean? && (RepoOf(db, id), Target(db, db.rows[id])) in git.refs && ok))
  }

  /** A merge that is not accepted changes nothing; an accepted one writes its outcome,
      and a clean one makes one commit on the target's previous tip. */
  lemma MergeInFull(db: Db, git: Git, id: Id, tree: MergeTree, ok: bool)
    ensures var r := Merge(db, git, id, tree, ok);
            if MergeAccepted(db, git, id, tree, ok) then
              && r.0 == Update(db, id, MergeOutcome(db, id, tree)) && r.2 == NoError
              && r.1 == (if tree.Clean? then AddCommit(git, RepoOf(db, id), Target(db, db.rows[id]), Some(id)) else git)
            else
              r.0 == db && r.1 == git && r.2 != NoError
  {
  }

  lemma OutcomeIsMergePatch(db: Db, id: Id, tree: MergeTree)
    requires id in db.rows && db.rows[id].projectId in db.projects && Mergeable(db.rows[id].status)
             && RowOk(db.rows[id])
    ensures MergePatch(db, id, MergeOutcome(db, id, tree))
  {
  }

  lemma MergeKeeps(w: World, id: Id, tree: MergeTree, ok: bool)
    requires Inv(w)
    ensures var r := Merge(w.db, w.git, id, tree, ok);
            && Inv(World(r.0, w.agents, r.1)) && WritesGrow(w.db, r.0, None) && GitGrows(w.git, r.1)
  {
    NothingKeeps(w);
    MergeInFull(w.db, w.git, id, tree, ok);
    if MergeAccepted(w.db, w.git, id, tree, ok) {
      var patch := MergeOutcome(w.db, id, tree);
      OutcomeIsMergePatch(w.db, id, tree);
      MergePatchHistory(w.db, id, patch);
      MergePatchSessions(w.db, w.agents, id, patch);
      AcceptedMergeKeeps(w, id, tree);
    }
  }

  lemma AcceptedMergeKeeps(w: World, id: Id, tree: MergeTree)
    requires Inv(w) && MergeAccepted(w.db, w.git, id, tree, true) && MergePatch(w.db, id, MergeOutcome(w.db, id, tree))
    ensures var git' := if tree.Clean? then AddCommit(w.git, RepoOf(w.db, id), Target(w.db, w.db.rows[id]), Some(id))
            else w.git;
            && NamesOk(Update(w.db, id, MergeOutcome(w.db, id, tree)), git')
            && ValidGit(git') && GitGrows(w.git, git')
            && MergedBy(git'.commits) == MergedBy(w.git.commits) + if tree.Clean? then [id] else []
  {
    MergePatchNames(w.db, w.git, id, MergeOutcome(w.db, id, tree));
    if tree.Clean? {
      CommitGrows(w.git, RepoOf(w.db, id), Target(w.db, w.db.rows[id]), Some(id));
    } else {
      NothingKeeps(w);
    }
  }

  // ---- rows that come and go ----

  lemma {:induction false} NeverWritten(writes: seq<StatusWrite>, id: Id)
    requires forall i :: 0 <= i < |writes| ==> writes[i].id != id
    ensures LastWritten(writes, id) == Queued
  {
    if writes != [] {
      NeverWritten(writes[..|writes| - 1], id);
    }
  }

  lemma InsertHistory(db: Db, id: Id, pid: string, agentType: string)
    requires HistoryOk(db) && RowsOk(db) && id !in db.issued
    ensures HistoryOk(Insert(db, id, pid, agentType)) && RowsOk(Insert(db, id, pid, agentType))
  {
    NeverWritten(db.writes, id);
  }

  lemma InsertNames(db: Db, git: Git, id: Id, pid: string, agentType: string)
    requires NamesOk(db, git) && id !in db.rows && pid in db.projects
    ensures NamesOk(Insert(db, id, pid, agentType), git)
  {
    var db' := Insert(db, id, pid, agentType);
    forall other | Prepared(db', other) ensures Prepared(db, other) && RepoOf(db', other) == RepoOf(db, other) {
    }
  }

  lemma InsertSessions(db: Db, ag: Agents, id: Id, pid: string, agentType: string)
    requires SessionsOk(db, ag) && id !in db.issued
    ensures SessionsOk(Insert(db, id, pid, agentType), ag)
  {
    var db' := Insert(db, id, pid, agentType);
    forall aid | aid in ag.adapters ensures PastSetup(db', ag.adapters[aid].ws) {
      assert PastSetup(db, ag.adapters[aid].ws);
    }
  }

  lemma InsertKeeps(w: World, id: Id, pid: string, agentType: string)
    requires Inv(w) && id !in w.db.issued && pid in w.db.projects
    ensures Inv(w.(db := Insert(w.db, id, pid, agentType)))
  {
    InsertHistory(w.db, id, pid, agentType);
    InsertNames(w.db, w.git, id, pid, agentType);
    InsertSessions(w.db, w.agents, id, pid, agentType);
  }

  lemma RemoveKeeps(w: World, pid: string)
    requires Inv(w)
    ensures Inv(w.(db := RemoveProject(w.db, pid)))
  {
    var db' := RemoveProject(w.db, pid);
    forall other | Prepared(db', other) ensures Prepared(w.db, other) && RepoOf(db', other) == RepoOf(w.db, other) {
    }
    forall aid | aid in w.agents.adapters ensures PastSetup(db', w.agents.adapters[aid].ws) {
      assert PastSetup(w.db, w.agents.adapters[aid].ws);
    }
  }

  lemma ProjectsKeep(w: World, projects: map<string, Project>)
    requires Inv(w)
    requires forall pid :: pid in w.db.projects ==>
             pid in projects && projects[pid].repoPath == w.db.projects[pid].repoPath
    ensures Inv(w.(db := w.db.(projects := projects)))
  {
    var db' := w.db.(projects := projects);
    forall other | Prepared(db', other) ensures Prepared(w.db, other) && RepoOf(db', other) == RepoOf(w.db, other) {
    }
    forall aid | aid in w.agents.adapters ensures PastSetup(db', w.agents.adapters[aid].ws) {
      assert PastSetup(w.db, w.agents.adapters[aid].ws);
    }
  }

  // ---- one step ----

  /** The channel and session bookkeeping of a step, without its database change. */
  lemma AgentsKeep(w: World, ag: Agents)
    requires Inv(w) && SessionsOk(w.db, ag)
    ensures Inv(w.(agents := ag))
  {
  }

  /** Agent calls, drain steps, Complete, Cancel and the sweep. */
  predicate Evolving(a: Action) {
    a.StartWs? || a.PromptWs? || a.StopWs? || a.CompleteWs? || a.CancelWs?
    || a.TakeEvent? || a.TakeClosed? || a.TakeCancelled? || a.Restart?
  }

  predicate IsCall(a: Action) {
    a.StartWs? || a.PromptWs? || a.StopWs? || a.CompleteWs? || a.CancelWs?
  }

  lemma CallEvolves(w: World, a: Action)
    requires Enabled(w, a) && IsCall(a)
    ensures Evolves(w.db, Step(w, a).db, None)
  {
    match a
    case StartWs(id, aid, prompt, f, s, p) => StartEvolves(w.db, w.agents, id, aid, prompt, f, s, p);
    case PromptWs(id, prompt, ok) => PromptEvolves(w.db, w.agents, id, prompt, ok);
    case StopWs(id) => NothingEvolves(w.db, None); StopEvolves(w.db, id);
    case CompleteWs(id) => CompleteEvolves(w.db, id);
    case CancelWs(id) => CancelEvolves(w.db, id);
  }

  lemma StepEvolves(w: World, a: Action)
    requires Enabled(w, a) && Evolving(a)
    ensures Evolves(w.db, Step(w, a).db, Turn(w, a))
  {
    if IsCall(a) {
      CallEvolves(w, a);
    } else {
      DrainStepEvolves(w, a);
    }
  }

  lemma DrainStepEvolves(w: World, a: Action)
    requires Enabled(w, a) && Evolving(a) && !IsCall(a)
    ensures Evolves(w.db, Step(w, a).db, Turn(w, a))
  {
    match a
    case TakeEvent(aid) =>
      var adapter := w.agents.adapters[aid];
      EventEvolves(w.db, adapter.ws, adapter.buf[0], adapter.cancelled, Turn(w, a));
    case TakeClosed(aid) =>
      NothingEvolves(w.db, None);
      MarkFailedEvolves(w.db, w.agents.adapters[aid].ws, "agent stream closed unexpectedly", None);
    case TakeCancelled(_) => NothingEvolves(w.db, None);
    case Restart(ids) => SweepEvolves(w.db, ids);
  }

  lemma EvolvingStepKeeps(w: World, a: Action)
    requires Inv(w) && Enabled(w, a) && Evolving(a)
    ensures Inv(Step(w, a)) && WritesGrow(w.db, Step(w, a).db, Turn(w, a))
  {
    var db' := Step(w, a).db;
    StepEvolves(w, a);
    EvolvingKeepsInv(w, db', Turn(w, a));
    match a {
      case StartWs(id, aid, prompt, f, s, p) => StartKeeps(w.db, w.agents, id, aid, prompt, f, s, p);
      case StopWs(id) => StopKeeps(w.db, w.agents, id);
      case TakeClosed(aid) => DrainExitKeeps(db', w.agents, aid);
      case TakeCancelled(aid) => DrainExitKeeps(db', w.agents, aid);
      case _ =>
    }
    assert SessionsOk(db', Step(w, a).agents);
  }

  /** Steps on projects, rows coming and going, and the clock. */
  predicate Registering(a: Action) {
    a.Tick? || a.NewProject? || a.SetDefaultBranch? || a.DropProject? || a.NewWorkspace?
  }

  lemma RegisteringKeeps(w: World, a: Action)
    requires Inv(w) && Enabled(w, a) && Registering(a)
    ensures Inv(Step(w, a)) && Step(w, a).db.writes == w.db.writes && Step(w, a).git == w.git
  {
    match a
    case Tick(now) => TickKeeps(w, now);
    case NewProject(pid, project) => ProjectsKeep(w, w.db.projects[pid := project]);
    case SetDefaultBranch(pid, branch) =>
      ProjectsKeep(w, w.db.projects[pid := w.db.projects[pid].(defaultBranch := branch)]);
    case DropProject(pid) => RemoveKeeps(w, pid);
    case NewWorkspace(id, pid, agentType) => InsertKeeps(w, id, pid, agentType);
  }

  /** What the adapters and the agents' own commits do outside the managers. */
  predicate Outside(a: Action) {
    a.Emit? || a.CloseStream? || a.AgentCommits?
  }

  lemma OutsideKeeps(w: World, a: Action)
    requires Inv(w) && Enabled(w, a) && Outside(a)
    ensures Inv(Step(w, a)) && Step(w, a).db == w.db && GitGrows(w.git, Step(w, a).git)
  {
    NothingKeeps(w);
    match a
    case Emit(_, _) => AgentsKeep(w, Step(w, a).agents);
    case CloseStream(aid) => ChannelKeeps(w.db, w.agents, aid);
    case AgentCommits(repo, branch) => CommitGrows(w.git, repo, branch, None);
  }

  lemma SameWritesGrow(db: Db, db': Db, turn: Option<Id>)
    requires db'.writes == db.writes && HistoryOk(db')
    ensures WritesGrow(db, db', turn)
  {
  }

  /** Every step keeps the invariant, writes only allowed statuses, and lets git history grow. */
  lemma StepKeeps(w: World, a: Action)
    requires Inv(w) && Enabled(w, a)
    ensures Inv(Step(w, a))
    ensures WritesGrow(w.db, Step(w, a).db, Turn(w, a))
    ensures GitGrows(w.git, Step(w, a).git)
  {
    NothingKeeps(w);
    if Registering(a) {
      RegisteringKeeps(w, a);
      SameWritesGrow(w.db, Step(w, a).db, Turn(w, a));
    } else if Outside(a) {
      OutsideKeeps(w, a);
      SameWritesGrow(w.db, Step(w, a).db, Turn(w, a));
    } else if a.PrepareWs? {
      PrepareKeeps(w, a.id, a.worktreeOk);
    } else if a.MergeWs? {
      MergeKeeps(w, a.id, a.tree, a.updateOk);
    } else {
      EvolvingStepKeeps(w, a);
    }
  }

  lemma TickKeeps(w: World, now: int)
    requires Inv(w)
    ensures Inv(w.(db := w.db.(clock := now))) && WritesGrow(w.db, w.db.(clock := now), None)
  {
  }
}
