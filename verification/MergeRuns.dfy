/** Runs of model A to a merge: every fresh server gets there, and a workspace merges into
    the branch it was prepared from. */
module MergeRuns {
  import opened Wrappers
  import opened Status
  import opened World
  import opened Lifecycle
  import opened ModelA
  import opened Runs
  import O = Outcomes

  // ---- a merge is reachable ----

  /** The workspace is there, of this project, in this status, and so is the project's branch. */
  predicate Stands(w: World, pid: string, project: Project, id: Id, status: Status) {
    && pid in w.db.projects && w.db.projects[pid] == project
    && id in w.db.rows && w.db.rows[id].projectId == pid && w.db.rows[id].status == status
    && (project.repoPath, project.defaultBranch) in w.git.refs
  }

  lemma Registered(w: World, pid: string, project: Project, id: Id, agentType: string)
    requires Initial(w) && pid !in w.db.projects && (project.repoPath, project.defaultBranch) in w.git.refs
    ensures var acts := [NewProject(pid, project)] + [NewWorkspace(id, pid, agentType)];
            IsRun(w, acts) && Stands(After(w, acts), pid, project, id, Queued) && After(w, acts).git == w.git
  {
    var first := [NewProject(pid, project)];
    assert IsRun(w, []) && After(w, []) == w && [] + first == first;
    OneMore(w, [], NewProject(pid, project));
    OneMore(w, first, NewWorkspace(id, pid, agentType));
  }

  lemma PreparedStands(w: World, pid: string, project: Project, id: Id)
    requires Stands(w, pid, project, id, Queued) && (project.repoPath, O.BranchOf(id)) !in w.git.refs
    ensures var w', main := Step(w, PrepareWs(id, true)), (project.repoPath, project.defaultBranch);
            && Stands(w', pid, project, id, Idle) && w'.db.rows[id].targetRef == project.defaultBranch
            && w'.git.commits == w.git.commits && w'.git.refs[main] == w.git.refs[main]
  {
    O.PreparePrepares(w.db, w.git, id, true);
  }

  lemma CompletedStands(w: World, pid: string, project: Project, id: Id)
    requires Stands(w, pid, project, id, Idle)
    ensures var w' := Step(w, CompleteWs(id));
            && Stands(w', pid, project, id, Completed) && w'.git == w.git
            && w'.db.rows[id].targetRef == w.db.rows[id].targetRef
  {
    O.CompleteCompletes(w.db, id);
  }

  lemma MergedStands(w: World, pid: string, project: Project, id: Id)
    requires Stands(w, pid, project, id, Completed) && w.db.rows[id].targetRef == project.defaultBranch
    ensures var w', main := Step(w, MergeWs(id, Clean, true)), (project.repoPath, project.defaultBranch);
            && Stands(w', pid, project, id, Merged)
            && w'.git.commits == w.git.commits + [Commit(Some(w.git.refs[main]), Some(id))]
            && w'.git.refs == w.git.refs[main := |w.git.commits|]
  {
    O.MergeMerges(w.db, w.git, id, Clean, true);
  }

  /** From every fresh server, for any project over a repository that has its default branch
      and any workspace: registered, prepared, completed and merged cleanly, the workspace is
      merged, and the branch has exactly one more commit, on its earlier tip. */
  lemma MergeIsReachable(w: World, pid: string, project: Project, id: Id, agentType: string)
    requires Initial(w) && pid !in w.db.projects && (project.repoPath, project.defaultBranch) in w.git.refs
    requires (project.repoPath, O.BranchOf(id)) !in w.git.refs
    ensures var acts := [NewProject(pid, project)] + [NewWorkspace(id, pid, agentType)] + [PrepareWs(id, true)]
                        + [CompleteWs(id)] + [MergeWs(id, Clean, true)];
            var t, main := After(w, acts), (project.repoPath, project.defaultBranch);
            && IsRun(w, acts) && id in t.db.rows && t.db.rows[id].status == Merged
            && t.git.commits == w.git.commits + [Commit(Some(w.git.refs[main]), Some(id))]
            && main in t.git.refs && t.git.refs[main] == |w.git.commits|
  {
    var acts := [NewProject(pid, project)] + [NewWorkspace(id, pid, agentType)];
    Registered(w, pid, project, id, agentType);
    PreparedThenMerged(w, acts, pid, project, id);
  }

  lemma PreparedThenMerged(w: World, acts: seq<Action>, pid: string, project: Project, id: Id)
    requires IsRun(w, acts) && Stands(After(w, acts), pid, project, id, Queued)
    requires (project.repoPath, O.BranchOf(id)) !in After(w, acts).git.refs
    ensures var merged := acts + [PrepareWs(id, true)] + [CompleteWs(id)] + [MergeWs(id, Clean, true)];
            var u, t, main := After(w, acts), After(w, merged), (project.repoPath, project.defaultBranch);
            && IsRun(w, merged) && id in t.db.rows && t.db.rows[id].status == Merged
            && t.git.commits == u.git.commits + [Commit(Some(u.git.refs[main]), Some(id))]
            && main in t.git.refs && t.git.refs[main] == |u.git.commits|
  {
    OneMore(w, acts, PrepareWs(id, true));
    PreparedStands(After(w, acts), pid, project, id);
    var prepared := acts + [PrepareWs(id, true)];
    OneMore(w, prepared, CompleteWs(id));
    CompletedStands(After(w, prepared), pid, project, id);
    var completed := prepared + [CompleteWs(id)];
    OneMore(w, completed, MergeWs(id, Clean, true));
    MergedStands(After(w, completed), pid, project, id);
  }

  // ---- the branch a workspace merges into ----

  /** A prepared workspace stays where it is, in its repository, with its target. */
  predicate SameTarget(db: Db, db': Db, id: Id) {
    && Prepared(db, id) && db.rows[id].projectId in db.projects
    && Prepared(db', id) && db'.rows[id].projectId in db'.projects
    && db'.rows[id].targetRef == db.rows[id].targetRef && RepoOf(db', id) == RepoOf(db, id)
  }

  lemma RegisteringKeepsTarget(w: World, a: Action, id: Id)
    requires Inv(w) && Enabled(w, a) && (Registering(a) || Outside(a)) && Prepared(w.db, id)
    requires id in Step(w, a).db.rows
    ensures SameTarget(w.db, Step(w, a).db, id)
  {
  }

  lemma PrepareLeavesOthers(db: Db, git: Git, other: Id, ok: bool, id: Id)
    requires id in db.rows && id != other
    ensures var db' := Prepare(db, git, other, ok).0;
            id in db'.rows && db'.rows[id] == db.rows[id] && db'.projects == db.projects
  {
    O.PreparePrepares(db, git, other, ok);
  }

  /** Where the branch exists, Prepare changes no more than the status. */
  lemma PrepareAgain(db: Db, git: Git, id: Id, ok: bool)
    requires id in db.rows && db.rows[id].projectId in db.projects
    requires (RepoOf(db, id), BranchName(id)) in git.refs
    ensures var db' := Prepare(db, git, id, ok).0;
            id in db'.rows && SamePlace(db.rows[id], db'.rows[id]) && db'.projects == db.projects
  {
  }

  lemma NamedBranch(w: World, id: Id)
    requires Inv(w) && Prepared(w.db, id)
    ensures w.db.rows[id].projectId in w.db.projects && (RepoOf(w.db, id), BranchName(id)) in w.git.refs
  {
    assert NamesOk(w.db, w.git);
  }

  lemma PlaceIsTarget(db: Db, db': Db, id: Id)
    requires Prepared(db, id) && db.rows[id].projectId in db.projects
    requires id in db'.rows && SamePlace(db.rows[id], db'.rows[id]) && db'.projects == db.projects
    ensures SameTarget(db, db', id)
  {
  }

  lemma PrepareLeavesTarget(db: Db, git: Git, other: Id, ok: bool, id: Id)
    requires Prepared(db, id) && db.rows[id].projectId in db.projects
    requires (RepoOf(db, id), BranchName(id)) in git.refs
    ensures SameTarget(db, Prepare(db, git, other, ok).0, id)
  {
    if other == id {
      PrepareAgain(db, git, id, ok);
    } else {
      PrepareLeavesOthers(db, git, other, ok, id);
    }
    PlaceIsTarget(db, Prepare(db, git, other, ok).0, id);
  }

  lemma PrepareKeepsTarget(w: World, other: Id, ok: bool, id: Id)
    requires Inv(w) && Prepared(w.db, id)
    ensures SameTarget(w.db, Step(w, PrepareWs(other, ok)).db, id)
  {
    NamedBranch(w, id);
    PrepareLeavesTarget(w.db, w.git, other, ok, id);
  }

  lemma MergeLeavesPlace(db: Db, git: Git, other: Id, tree: MergeTree, ok: bool, id: Id)
    requires id in db.rows
    ensures var db' := Merge(db, git, other, tree, ok).0;
            id in db'.rows && SamePlace(db.rows[id], db'.rows[id]) && db'.projects == db.projects
  {
    MergeInFull(db, git, other, tree, ok);
  }

  lemma MergeLeavesTarget(db: Db, git: Git, other: Id, tree: MergeTree, ok: bool, id: Id)
    requires Prepared(db, id) && db.rows[id].projectId in db.projects
    ensures SameTarget(db, Merge(db, git, other, tree, ok).0, id)
  {
    MergeLeavesPlace(db, git, other, tree, ok, id);
    PlaceIsTarget(db, Merge(db, git, other, tree, ok).0, id);
  }

  lemma MergeKeepsTarget(w: World, other: Id, tree: MergeTree, ok: bool, id: Id)
    requires Inv(w) && Prepared(w.db, id)
    ensures SameTarget(w.db, Step(w, MergeWs(other, tree, ok)).db, id)
  {
    NamedBranch(w, id);
    MergeLeavesTarget(w.db, w.git, other, tree, ok, id);
  }

  lemma StepKeepsTarget(w: World, a: Action, id: Id)
    requires Inv(w) && Enabled(w, a) && Prepared(w.db, id) && id in Step(w, a).db.rows
    ensures SameTarget(w.db, Step(w, a).db, id)
  {
    if Evolving(a) {
      StepEvolves(w, a);
      assert RowEvolves(w.db.rows[id], Step(w, a).db.rows[id]);
    } else if a.PrepareWs? {
      PrepareKeepsTarget(w, a.id, a.worktreeOk, id);
    } else if a.MergeWs? {
      MergeKeepsTarget(w, a.id, a.tree, a.updateOk, id);
    } else {
      RegisteringKeepsTarget(w, a, id);
    }
  }

  lemma IssuedStays(w: World, a: Action)
    requires Inv(w) && Enabled(w, a)
    ensures w.db.issued <= Step(w, a).db.issued
  {
    if Evolving(a) {
      StepEvolves(w, a);
    } else if a.PrepareWs? {
      O.PreparePrepares(w.db, w.git, a.id, a.worktreeOk);
    } else if a.MergeWs? {
      MergeInFull(w.db, w.git, a.id, a.tree, a.updateOk);
    }
  }

  /** From step j on, as long as the row is there at the end. */
  lemma {:induction false} TargetStays(w: World, acts: seq<Action>, j: nat, id: Id)
    requires Initial(w) && IsRun(w, acts) && j <= |acts| && Prepared(After(w, acts[..j]).db, id)
    ensures id in After(w, acts).db.issued
    ensures id in After(w, acts).db.rows ==> SameTarget(After(w, acts[..j]).db, After(w, acts).db, id)
  {
    RunKeeps(w, acts[..j]) by { PrefixIsRun(w, acts, j); }
    if j == |acts| {
      assert acts[..j] == acts;
    } else {
      var front, last := acts[..|acts| - 1], acts[|acts| - 1];
      assert front[..j] == acts[..j];
      TargetStays(w, front, j, id);
      RunKeeps(w, front);
      LastStepKeepsTarget(After(w, acts[..j]).db, After(w, front), last, id);
    }
  }

  lemma LastStepKeepsTarget(db: Db, w: World, a: Action, id: Id)
    requires Inv(w) && Enabled(w, a) && id in w.db.issued
    requires id in w.db.rows ==> SameTarget(db, w.db, id)
    ensures id in Step(w, a).db.issued
    ensures id in Step(w, a).db.rows ==> SameTarget(db, Step(w, a).db, id)
  {
    IssuedStays(w, a);
    if id in Step(w, a).db.rows {
      if id !in w.db.rows {
        NewRowsAreInserted(w, a, id);
      } else {
        StepKeepsTarget(w, a, id);
      }
    }
  }

  /** Over every run: a workspace that was prepared while `branch` was its project's default
      merges into that branch, whatever the default is by then; a conflict names it too. Only
      one prepared without a default branch follows the project's. */
  lemma MergesIntoItsOrigin(w: World, acts: seq<Action>, k: nat, id: Id, tree: MergeTree, ok: bool)
    requires Initial(w) && IsRun(w, acts) && k < |acts| && acts[k] == PrepareWs(id, true)
    requires var u := After(w, acts[..k]);
             id in u.db.rows && Prepare(u.db, u.git, id, true).2 == NoError
    requires id in After(w, acts).db.rows
    ensures var u, t := After(w, acts[..k]), After(w, acts);
            && u.db.rows[id].projectId in u.db.projects
            && t.db.rows[id].projectId in t.db.projects
            && var proj, branch := t.db.projects[t.db.rows[id].projectId],
                                   u.db.projects[u.db.rows[id].projectId].defaultBranch;
               var r := Merge(t.db, t.git, id, tree, ok);
               && proj.repoPath == u.db.projects[u.db.rows[id].projectId].repoPath
               && O.MergesInto(t.db, t.git, r.0, r.1, id, proj.repoPath,
                               if branch != "" then branch else proj.defaultBranch, tree, ok, r.2)
  {
    PrefixIsRun(w, acts, k);
    var u, t := After(w, acts[..k]), After(w, acts);
    OriginIsTarget(u.db, u.git, id);
    TargetStays(w, acts, k + 1, id);
    MergesIntoTarget(u.db, Prepare(u.db, u.git, id, true).0, t.db, t.git, id, tree, ok);
  }

  /** `was` is the database before the Prepare, `prepared` the one after it. */
  lemma MergesIntoTarget(was: Db, prepared: Db, db: Db, git: Git, id: Id, tree: MergeTree, ok: bool)
    requires id in was.rows && was.rows[id].projectId in was.projects && SameTarget(prepared, db, id)
    requires RepoOf(prepared, id) == RepoOf(was, id)
    requires prepared.rows[id].targetRef == was.projects[was.rows[id].projectId].defaultBranch
    ensures id in db.rows && db.rows[id].projectId in db.projects
    ensures var proj, branch := db.projects[db.rows[id].projectId], was.projects[was.rows[id].projectId].defaultBranch;
            var r := Merge(db, git, id, tree, ok);
            && proj.repoPath == was.projects[was.rows[id].projectId].repoPath
            && O.MergesInto(db, git, r.0, r.1, id, proj.repoPath,
                            if branch != "" then branch else proj.defaultBranch, tree, ok, r.2)
  {
    O.MergeMerges(db, git, id, tree, ok);
  }

  lemma OriginIsTarget(db: Db, git: Git, id: Id)
    requires id in db.rows && Prepare(db, git, id, true).2 == NoError
    ensures var db' := Prepare(db, git, id, true).0;
            && db.rows[id].projectId in db.projects && Prepared(db', id)
            && db'.rows[id].projectId in db'.projects && RepoOf(db', id) == RepoOf(db, id)
            && db'.rows[id].targetRef == db.projects[db.rows[id].projectId].defaultBranch
  {
  }
}
