/** The theorems of model A: statements about every run from a fresh server. */
module Runs {
  import opened Wrappers
  import opened Status
  import opened WorkspaceRow
  import opened Events
  import opened World
  import opened Lifecycle
  import opened ModelA
  import O = Outcomes

  lemma {:induction false} NoMergesYet(commits: seq<Commit>)
    requires forall c :: c in commits ==> c.mergedBy == None
    ensures MergedBy(commits) == []
  {
    if commits != [] {
      assert commits[|commits| - 1] in commits;
      NoMergesYet(commits[..|commits| - 1]);
    }
  }

  lemma {:induction false} RunKeeps(w: World, acts: seq<Action>)
    requires Initial(w) && IsRun(w, acts)
    ensures Inv(After(w, acts))
  {
    if acts != [] {
      RunKeeps(w, acts[..|acts| - 1]);
      StepKeeps(After(w, acts[..|acts| - 1]), acts[|acts| - 1]);
    } else {
      NoMergesYet(w.git.commits);
    }
  }

  lemma {:induction false} PrefixIsRun(w: World, acts: seq<Action>, k: nat)
    requires IsRun(w, acts) && k <= |acts|
    ensures IsRun(w, acts[..k])
    ensures k < |acts| ==>
      Enabled(After(w, acts[..k]), acts[k]) && After(w, acts[..k + 1]) == Step(After(w, acts[..k]), acts[k])
  {
    if k < |acts| {
      var shorter := acts[..|acts| - 1];
      if k < |acts| - 1 {
        PrefixIsRun(w, shorter, k);
        assert shorter[..k] == acts[..k] && shorter[..k + 1] == acts[..k + 1];
      } else {
        assert acts[..k + 1] == acts && acts[..k] == shorter;
      }
    } else {
      assert acts[..k] == acts;
    }
  }

  // ---- statuses ----

  /** The status columns of a run are its history, row by row; each write starts from
      what the one before it left. */
  lemma StatusesAreTheHistory(w: World, acts: seq<Action>)
    requires Initial(w) && IsRun(w, acts)
    ensures Chained(After(w, acts).db.writes)
    ensures forall id :: id in After(w, acts).db.rows ==>
      LastWritten(After(w, acts).db.writes, id) == After(w, acts).db.rows[id].status
  {
    RunKeeps(w, acts);
  }

  /** Every status write of step k is an edge of the table or a live workspace forced to
      failed, unless the step is the drain handling turn_complete, which writes awaiting_input. */
  lemma StatusWritesAreAllowed(w: World, acts: seq<Action>, k: nat, i: nat)
    requires Initial(w) && IsRun(w, acts) && k < |acts|
    requires |After(w, acts[..k]).db.writes| <= i < |After(w, acts[..k + 1]).db.writes|
    ensures Allowed(After(w, acts[..k + 1]).db.writes[i], Turn(After(w, acts[..k]), acts[k]))
  {
    PrefixIsRun(w, acts, k);
    RunKeeps(w, acts[..k]);
    StepKeeps(After(w, acts[..k]), acts[k]);
  }

  /** Two statuses of the table are never reached: nothing writes them. So every merge
      of a run starts from completed, and the sweep meets three of its five statuses. */
  lemma DeadStatuses(w: World, acts: seq<Action>, id: Id)
    requires Initial(w) && IsRun(w, acts) && id in After(w, acts).db.rows
    ensures var s := After(w, acts).db.rows[id].status; s != ResolvingConflict && s != AwaitingApproval
  {
    RunKeeps(w, acts);
  }

  /** Turn_complete of the workspace's own drain is the only thing that moves a
      workspace out of a terminal status, and it always does. */
  lemma TerminalUnlessLateDone(w: World, a: Action, id: Id)
    requires Inv(w) && Enabled(w, a)
    requires id in w.db.rows && IsTerminal(w.db.rows[id].status) && id in Step(w, a).db.rows
    ensures Step(w, a).db.rows[id].status != w.db.rows[id].status <==> Turn(w, a) == Some(id)
  {
    StepKeeps(w, a);
    if Turn(w, a) == Some(id) {
      TurnWritesAwaiting(w, a.aid);
    } else {
      WritesKeepTerminal(w.db, Step(w, a).db, id, Turn(w, a));
    }
  }

  lemma WritesKeepTerminal(db: Db, db': Db, id: Id, turn: Option<Id>)
    requires HistoryOk(db) && WritesGrow(db, db', turn) && turn != Some(id)
    requires id in db.rows && id in db'.rows && IsTerminal(db.rows[id].status)
    ensures db'.rows[id].status == db.rows[id].status
  {
    assert db'.writes[..|db'.writes|] == db'.writes;
    assert forall i: nat :: |db.writes| <= i < |db'.writes| ==> Linked(db'.writes, i, turn);
    NoWriteFromTerminal(db'.writes, |db.writes|, id, turn, |db'.writes|);
  }

  lemma TerminalStays(write: StatusWrite, turn: Option<Id>)
    requires IsTerminal(write.from) && Allowed(write, turn)
    ensures turn == Some(write.id)
  {
    NoWayOut(write.from);
  }

  lemma TerminalStep(writes: seq<StatusWrite>, k: nat, id: Id, turn: Option<Id>)
    requires k < |writes| && writes[k].from == LastWritten(writes[..k], writes[k].id) && Allowed(writes[k], turn)
    requires turn != Some(id) && IsTerminal(LastWritten(writes[..k], id))
    ensures LastWritten(writes[..k + 1], id) == LastWritten(writes[..k], id)
  {
    assert writes[..k + 1] == writes[..k] + [writes[k]];
    AppendWrite(writes[..k], writes[k], id);
    if writes[k].id == id {
      TerminalStays(writes[k], turn);
    }
  }

  /** Write k is allowed and starts from what the writes before it left. */
  predicate Linked(writes: seq<StatusWrite>, k: nat, turn: Option<Id>)
    requires k < |writes|
  {
    writes[k].from == LastWritten(writes[..k], writes[k].id) && Allowed(writes[k], turn)
  }

  lemma {:induction false} NoWriteFromTerminal(writes: seq<StatusWrite>, n: nat, id: Id, turn: Option<Id>, k: nat)
    requires turn != Some(id) && n <= k <= |writes|
    requires forall i: nat :: n <= i < |writes| ==> Linked(writes, i, turn)
    requires IsTerminal(LastWritten(writes[..n], id))
    ensures LastWritten(writes[..k], id) == LastWritten(writes[..n], id)
  {
    if k > n {
      NoWriteFromTerminal(writes, n, id, turn, k - 1);
      assert Linked(writes, k - 1, turn);
      TerminalStep(writes, k - 1, id, turn);
    }
  }

  lemma TurnWritesAwaiting(w: World, aid: AdapterId)
    requires Enabled(w, TakeEvent(aid)) && Turn(w, TakeEvent(aid)).Some?
    requires w.agents.adapters[aid].ws in w.db.rows
    ensures Step(w, TakeEvent(aid)).db.rows[w.agents.adapters[aid].ws].status == AwaitingInput
  {
    var a := w.agents.adapters[aid];
    var logged := AddMessage(w.db, a.ws, MessageRole(a.buf[0]), a.buf[0].content);
    assert ApplyCost(logged, a.ws, a.buf[0]) == logged;
  }

  function Takes(aid: AdapterId, k: nat): seq<Action> {
    seq(k, i requires 0 <= i < k => TakeEvent(aid))
  }

  /** One step more. */
  lemma OneMore(w: World, acts: seq<Action>, a: Action)
    requires IsRun(w, acts) && Enabled(After(w, acts), a)
    ensures IsRun(w, acts + [a]) && After(w, acts + [a]) == Step(After(w, acts), a)
  {
    assert (acts + [a])[..|acts|] == acts;
  }

  lemma CanTakeOne(w: World, aid: AdapterId)
    requires Draining(w.agents, aid) && w.agents.adapters[aid].buf != []
    ensures Enabled(w, TakeEvent(aid))
    ensures var t := Step(w, TakeEvent(aid));
            && t.db.rows.Keys == w.db.rows.Keys && Draining(t.agents, aid)
            && t.agents.adapters[aid] == w.agents.adapters[aid].(buf := w.agents.adapters[aid].buf[1..])
  {
    StepEvolves(w, TakeEvent(aid));
  }

  /** The drain is alive, and this much of its buffer is left. */
  predicate StillTaking(w: World, t: World, aid: AdapterId, a: Adapter) {
    t.db.rows.Keys == w.db.rows.Keys && Draining(t.agents, aid) && t.agents.adapters[aid] == a
  }

  lemma TakenOneMore(w: World, acts: seq<Action>, aid: AdapterId, a: Adapter)
    requires IsRun(w, acts) && StillTaking(w, After(w, acts), aid, a) && a.buf != []
    ensures IsRun(w, acts + [TakeEvent(aid)])
    ensures StillTaking(w, After(w, acts + [TakeEvent(aid)]), aid, a.(buf := a.buf[1..]))
  {
    CanTakeOne(After(w, acts), aid);
    OneMore(w, acts, TakeEvent(aid));
  }

  lemma TakesMore(aid: AdapterId, k: nat)
    ensures Takes(aid, 0) == [] && Takes(aid, k + 1) == Takes(aid, k) + [TakeEvent(aid)]
  {
  }

  lemma NoStep(w: World)
    ensures IsRun(w, []) && After(w, []) == w
  {
  }

  /** A drain can go on taking what is buffered. */
  lemma {:induction false} CanTakeOn(w: World, aid: AdapterId, k: nat)
    requires Draining(w.agents, aid) && k <= |w.agents.adapters[aid].buf|
    ensures IsRun(w, Takes(aid, k))
    ensures var a := w.agents.adapters[aid]; StillTaking(w, After(w, Takes(aid, k)), aid, a.(buf := a.buf[k..]))
  {
    var a := w.agents.adapters[aid];
    if k == 0 {
      TakesMore(aid, 0);
      NoStep(w);
      assert a.buf[0..] == a.buf;
    } else {
      CanTakeOn(w, aid, k - 1);
      TakesMore(aid, k - 1);
      TakenOneMore(w, Takes(aid, k - 1), aid, a.(buf := a.buf[k - 1..]));
      assert a.buf[k - 1..][1..] == a.buf[k..];
    }
  }

  predicate IsTurnComplete(ev: AgentEvent) {
    IsTerminalEvent(ev) && DoneReasonOf(ev).TurnComplete?
  }

  /** It does happen: whenever a running workspace is stopped while its drain still has a
      turn_complete anywhere in its buffer, the drain may go on to take it and revive the
      cancelled workspace. */
  lemma StoppedThenRevived(w: World, id: Id, i: nat)
    requires SessionsOk(w.db, w.agents) && id in w.db.rows && w.db.rows[id].status == Running && id in w.agents.sessions
    requires var a := w.agents.adapters[w.agents.sessions[id]]; a.draining && i < |a.buf| && IsTurnComplete(a.buf[i])
    ensures var stopped := Step(w, StopWs(id));
            var late := Takes(w.agents.sessions[id], i + 1);
            && id in stopped.db.rows && stopped.db.rows[id].status == Cancelled
            && IsRun(stopped, late)
            && id in After(stopped, late).db.rows && After(stopped, late).db.rows[id].status == AwaitingInput
  {
    var aid, stopped := w.agents.sessions[id], Step(w, StopWs(id));
    AfterStop(w, id);
    CanTakeOn(stopped, aid, i);
    TakesMore(aid, i);
    RevivedByNext(stopped, Takes(aid, i), aid);
  }

  lemma RevivedByNext(w: World, acts: seq<Action>, aid: AdapterId)
    requires IsRun(w, acts) && Draining(After(w, acts).agents, aid)
    requires var a := After(w, acts).agents.adapters[aid];
             a.buf != [] && IsTurnComplete(a.buf[0]) && a.ws in After(w, acts).db.rows
    ensures var t, id := After(w, acts + [TakeEvent(aid)]), After(w, acts).agents.adapters[aid].ws;
            IsRun(w, acts + [TakeEvent(aid)]) && id in t.db.rows && t.db.rows[id].status == AwaitingInput
  {
    CanTakeOne(After(w, acts), aid);
    OneMore(w, acts, TakeEvent(aid));
    TurnWritesAwaiting(After(w, acts), aid);
  }

  lemma AfterStop(w: World, id: Id)
    requires SessionsOk(w.db, w.agents) && id in w.db.rows && w.db.rows[id].status == Running && id in w.agents.sessions
    ensures var stopped, aid := Step(w, StopWs(id)), w.agents.sessions[id];
            && id in stopped.db.rows && stopped.db.rows[id].status == Cancelled
            && aid in stopped.agents.adapters
            && stopped.agents.adapters[aid] == w.agents.adapters[aid].(closed := true, cancelled := true)
  {
  }

  predicate QueuedIn(w: World, pid: string, project: Project, id: Id) {
    && pid in w.db.projects && w.db.projects[pid] == project
    && id in w.db.rows && w.db.rows[id].status == Queued && w.db.rows[id].projectId == pid
    && (project.repoPath, project.defaultBranch) in w.git.refs && (project.repoPath, BranchName(id)) !in w.git.refs
  }

  predicate ReadyToStart(w: World, id: Id) {
    && w.agents == Agents(map[], map[])
    && id in w.db.rows && w.db.rows[id].status == Idle && w.db.rows[id].worktreePath != ""
  }

  lemma PrepareQueued(w: World, pid: string, project: Project, id: Id)
    requires QueuedIn(w, pid, project, id) && w.agents == Agents(map[], map[])
    ensures ReadyToStart(Step(w, PrepareWs(id, true)), id)
  {
  }

  lemma InsertQueued(w: World, pid: string, project: Project, id: Id, agentType: string)
    requires pid !in w.db.projects && w.db.issued == {}
    requires (project.repoPath, project.defaultBranch) in w.git.refs
             && (project.repoPath, BranchName(id)) !in w.git.refs
    ensures var w' := Step(w, NewProject(pid, project));
            && Enabled(w', NewWorkspace(id, pid, agentType))
            && Step(w', NewWorkspace(id, pid, agentType)).agents == w.agents
            && QueuedIn(Step(w', NewWorkspace(id, pid, agentType)), pid, project, id)
  {
  }

  /** A workspace is prepared. */
  lemma SetUp(w: World, pid: string, project: Project, id: Id, agentType: string)
    requires Initial(w) && pid !in w.db.projects
    requires (project.repoPath, project.defaultBranch) in w.git.refs
             && (project.repoPath, BranchName(id)) !in w.git.refs
    ensures var acts := [NewProject(pid, project)] + [NewWorkspace(id, pid, agentType)] + [PrepareWs(id, true)];
            IsRun(w, acts) && ReadyToStart(After(w, acts), id)
  {
    var first := [NewProject(pid, project)];
    var second := first + [NewWorkspace(id, pid, agentType)];
    InsertQueued(w, pid, project, id, agentType);
    assert IsRun(w, []) && After(w, []) == w && [] + first == first;
    OneMore(w, [], NewProject(pid, project));
    OneMore(w, first, NewWorkspace(id, pid, agentType));
    PrepareQueued(After(w, second), pid, project, id);
    OneMore(w, second, PrepareWs(id, true));
  }

  /** A workspace runs, and its one adapter has these events buffered. */
  predicate OneSession(w: World, id: Id, aid: AdapterId, buf: seq<AgentEvent>) {
    && id in w.db.rows && w.db.rows[id].status == Running && w.agents.sessions == map[id := aid]
    && w.agents.adapters == map[aid := Adapter(id, buf, false, false, true)]
  }

  lemma StartIdle(w: World, id: Id, aid: AdapterId, prompt: string)
    requires ReadyToStart(w, id)
    ensures OneSession(Step(w, StartWs(id, aid, prompt, true, true, true)), id, aid, [])
  {
  }

  lemma EmitFirst(w: World, id: Id, aid: AdapterId, ev: AgentEvent)
    requires OneSession(w, id, aid, [])
    ensures Enabled(w, Emit(aid, ev)) && OneSession(Step(w, Emit(aid, ev)), id, aid, [ev])
  {
    assert [] + [ev] == [ev];
    assert w.agents.adapters[aid := Adapter(id, [ev], false, false, true)]
           == map[aid := Adapter(id, [ev], false, false, true)];
  }

  lemma TakesOne(w: World, aid: AdapterId)
    requires IsRun(w, Takes(aid, 1))
    ensures Enabled(w, TakeEvent(aid)) && After(w, Takes(aid, 1)) == Step(w, TakeEvent(aid))
  {
    assert Takes(aid, 1)[..0] == [] && Takes(aid, 1)[0] == TakeEvent(aid);
    assert After(w, []) == w;
  }

  lemma Revived(t: World, id: Id, aid: AdapterId, ev: AgentEvent)
    requires SessionsOk(t.db, t.agents) && OneSession(t, id, aid, [ev]) && IsTurnComplete(ev)
    ensures var stopped := Step(t, StopWs(id));
            && id in stopped.db.rows && stopped.db.rows[id].status == Cancelled
            && Enabled(stopped, TakeEvent(aid))
            && id in Step(stopped, TakeEvent(aid)).db.rows
            && Step(stopped, TakeEvent(aid)).db.rows[id].status == AwaitingInput
  {
    StoppedThenRevived(t, id, 0);
    TakesOne(Step(t, StopWs(id)), aid);
  }

  /** It is stopped before its drain has taken that. */
  lemma StoppedTooSoon(w: World, acts: seq<Action>, id: Id, aid: AdapterId, ev: AgentEvent)
    requires IsRun(w, acts) && OneSession(After(w, acts), id, aid, [ev]) && IsTurnComplete(ev)
    requires SessionsOk(After(w, acts).db, After(w, acts).agents)
    ensures var stopped, late := acts + [StopWs(id)], acts + [StopWs(id)] + [TakeEvent(aid)];
            && IsRun(w, stopped) && id in After(w, stopped).db.rows && After(w, stopped).db.rows[id].status == Cancelled
            && IsRun(w, late) && id in After(w, late).db.rows && After(w, late).db.rows[id].status == AwaitingInput
  {
    OneMore(w, acts, StopWs(id));
    Revived(After(w, acts), id, aid, ev);
    OneMore(w, acts + [StopWs(id)], TakeEvent(aid));
  }

  lemma StartedThenRevived(w: World, acts: seq<Action>, id: Id, aid: AdapterId, prompt: string, ev: AgentEvent)
    requires Initial(w) && IsRun(w, acts) && ReadyToStart(After(w, acts), id) && IsTurnComplete(ev)
    ensures var stopped := acts + [StartWs(id, aid, prompt, true, true, true)] + [Emit(aid, ev)] + [StopWs(id)];
            var late := stopped + [TakeEvent(aid)];
            && IsRun(w, stopped) && id in After(w, stopped).db.rows && After(w, stopped).db.rows[id].status == Cancelled
            && IsRun(w, late) && id in After(w, late).db.rows && After(w, late).db.rows[id].status == AwaitingInput
  {
    var start := StartWs(id, aid, prompt, true, true, true);
    OneMore(w, acts, start);
    StartIdle(After(w, acts), id, aid, prompt);
    EmitFirst(After(w, acts + [start]), id, aid, ev);
    OneMore(w, acts + [start], Emit(aid, ev));
    var more := acts + [start] + [Emit(aid, ev)];
    RunKeeps(w, more);
    StoppedTooSoon(w, more, id, aid, ev);
  }

  /** Every fresh server gets there: for any project over a repository that has its default
      branch, any workspace, and any turn_complete, a run of seven steps leaves the stopped
      workspace awaiting input. */
  lemma RevivalIsReachable(w: World, pid: string, project: Project, id: Id, agentType: string, aid: AdapterId,
                           prompt: string, ev: AgentEvent)
    requires Initial(w) && pid !in w.db.projects && IsTurnComplete(ev)
    requires (project.repoPath, project.defaultBranch) in w.git.refs
             && (project.repoPath, BranchName(id)) !in w.git.refs
    ensures var stopped := [NewProject(pid, project)] + [NewWorkspace(id, pid, agentType)] + [PrepareWs(id, true)]
                           + [StartWs(id, aid, prompt, true, true, true)] + [Emit(aid, ev)] + [StopWs(id)];
            var late := stopped + [TakeEvent(aid)];
            && IsRun(w, stopped) && id in After(w, stopped).db.rows && After(w, stopped).db.rows[id].status == Cancelled
            && IsRun(w, late) && id in After(w, late).db.rows && After(w, late).db.rows[id].status == AwaitingInput
  {
    SetUp(w, pid, project, id, agentType);
    var prepared := [NewProject(pid, project)] + [NewWorkspace(id, pid, agentType)] + [PrepareWs(id, true)];
    StartedThenRevived(w, prepared, id, aid, prompt, ev);
  }

  // ---- setup and sessions ----

  /** A workspace still being set up has no session and no adapter, whatever the drains do. */
  lemma SetupHasNoSession(w: World, acts: seq<Action>, id: Id)
    requires Initial(w) && IsRun(w, acts)
    requires var db := After(w, acts).db; id in db.rows && InSetup(db.rows[id].status)
    ensures var ag := After(w, acts).agents;
            && id !in ag.sessions
            && forall aid :: aid in ag.adapters ==> ag.adapters[aid].ws != id
  {
    RunKeeps(w, acts);
    var db, ag := After(w, acts).db, After(w, acts).agents;
    forall aid | aid in ag.adapters ensures ag.adapters[aid].ws != id {
      assert PastSetup(db, ag.adapters[aid].ws);
    }
  }

  /** So Start meets an existing session exactly when it restarts an awaiting workspace
      that still has one, and never from idle. */
  lemma AlreadyActiveExactly(w: World, acts: seq<Action>, id: Id, aid: AdapterId, prompt: string, f: bool, s: bool,
                             p: bool)
    requires Initial(w) && IsRun(w, acts)
    ensures var db, ag := After(w, acts).db, After(w, acts).agents;
            Start(db, ag, id, aid, prompt, f, s, p).2 == AlreadyActive
            <==> (&& id in db.rows && db.rows[id].status == AwaitingInput && id in ag.sessions
                  && db.rows[id].worktreePath != "" && f && s)
  {
    var db, ag := After(w, acts).db, After(w, acts).agents;
    if id in db.rows && InSetup(db.rows[id].status) {
      SetupHasNoSession(w, acts, id);
    }
    StartCases(db, ag, id, aid, prompt, f, s, p);
  }

  lemma StartCases(db: Db, ag: Agents, id: Id, aid: AdapterId, prompt: string, f: bool, s: bool, p: bool)
    requires id in db.rows && InSetup(db.rows[id].status) ==> id !in ag.sessions
    ensures Start(db, ag, id, aid, prompt, f, s, p).2 == AlreadyActive
            <==> (&& id in db.rows && db.rows[id].status == AwaitingInput && id in ag.sessions
                  && db.rows[id].worktreePath != "" && f && s)
  {
  }

  // ---- live drains ----

  /** A drain whose database calls can succeed. */
  predicate Live(ag: Agents, aid: AdapterId) {
    Draining(ag, aid) && !ag.adapters[aid].cancelled
  }

  /** A live drain is the one its workspace's session names. */
  ghost predicate LiveOk(ag: Agents) {
    forall aid: AdapterId :: Live(ag, aid) ==>
      ag.adapters[aid].ws in ag.sessions && ag.sessions[ag.adapters[aid].ws] == aid
  }

  lemma CancelKeepsLive(ag: Agents, aid: AdapterId)
    requires LiveOk(ag)
    ensures LiveOk(CancelContext(ag, aid)) && LiveOk(CloseChannel(ag, aid))
    ensures !Live(CancelContext(ag, aid), aid)
  {
    assert forall other: AdapterId :: Live(CancelContext(ag, aid), other) ==> Live(ag, other);
    assert forall other: AdapterId :: Live(CloseChannel(ag, aid), other) ==> Live(ag, other);
  }

  lemma CleanupKeepsLive(ag: Agents, id: Id)
    requires LiveOk(ag)
    ensures LiveOk(CleanupSession(ag, id))
  {
    assert forall other: AdapterId :: Live(CleanupSession(ag, id), other) ==> Live(ag, other);
  }

  lemma SessionsAgree(ag: Agents, ag': Agents)
    requires LiveOk(ag) && ag'.sessions == ag.sessions
    requires forall aid: AdapterId :: Live(ag', aid) ==> Live(ag, aid) && ag'.adapters[aid].ws == ag.adapters[aid].ws
    ensures LiveOk(ag')
  {
  }

  lemma DrainKeepsLive(ag: Agents, aid: AdapterId)
    requires LiveOk(ag) && Draining(ag, aid)
    ensures LiveOk(DrainExit(ag, aid))
  {
    var over := ag.(adapters := ag.adapters[aid := ag.adapters[aid].(draining := false)]);
    SessionsAgree(ag, over);
    CleanupKeepsLive(over, ag.adapters[aid].ws);
  }

  lemma StartKeepsLive(db: Db, ag: Agents, id: Id, aid: AdapterId, prompt: string, f: bool, s: bool, p: bool)
    requires LiveOk(ag) && aid !in ag.adapters
    ensures LiveOk(Start(db, ag, id, aid, prompt, f, s, p).1)
  {
    if id in ag.sessions {
      var orphaned := ag.(adapters := ag.adapters[aid := Adapter(id, [], false, true, false)]);
      SessionsAgree(ag, orphaned);
      CancelKeepsLive(orphaned, ag.sessions[id]);
    } else {
      var ag' := ag.(sessions := ag.sessions[id := aid],
                     adapters := ag.adapters[aid := Adapter(id, [], false, false, p)]);
      forall other: AdapterId | Live(ag', other)
        ensures ag'.adapters[other].ws in ag'.sessions && ag'.sessions[ag'.adapters[other].ws] == other
      {
        assert other != aid ==> Live(ag, other);
      }
      CleanupKeepsLive(ag', id);
    }
  }

  lemma StopKeepsLive(db: Db, ag: Agents, id: Id)
    requires LiveOk(ag)
    ensures LiveOk(Stop(db, ag, id).1)
  {
    if id in ag.sessions {
      CancelKeepsLive(ag, ag.sessions[id]);
      CancelKeepsLive(CancelContext(ag, ag.sessions[id]), ag.sessions[id]);
      CleanupKeepsLive(CloseChannel(CancelContext(ag, ag.sessions[id]), ag.sessions[id]), id);
    }
  }

  lemma StepKeepsLive(w: World, a: Action)
    requires LiveOk(w.agents) && Enabled(w, a)
    ensures LiveOk(Step(w, a).agents)
  {
    match a
    case StartWs(id, aid, prompt, f, s, p) => StartKeepsLive(w.db, w.agents, id, aid, prompt, f, s, p);
    case StopWs(id) => StopKeepsLive(w.db, w.agents, id);
    case Emit(_, _) => SessionsAgree(w.agents, Step(w, a).agents);
    case CloseStream(aid) => CancelKeepsLive(w.agents, aid);
    case TakeEvent(_) => SessionsAgree(w.agents, Step(w, a).agents);
    case TakeClosed(aid) => DrainKeepsLive(w.agents, aid);
    case TakeCancelled(aid) => DrainKeepsLive(w.agents, aid);
    case _ =>
  }

  lemma {:induction false} RunKeepsLive(w: World, acts: seq<Action>)
    requires Initial(w) && IsRun(w, acts)
    ensures LiveOk(After(w, acts).agents)
  {
    if acts != [] {
      RunKeepsLive(w, acts[..|acts| - 1]);
      StepKeepsLive(After(w, acts[..|acts| - 1]), acts[|acts| - 1]);
    }
  }

  /** With calls as single steps, a workspace never has two drains whose database calls can
      succeed; drains under cancelled contexts may be many. */
  lemma OneLiveDrain(w: World, acts: seq<Action>, d: AdapterId, e: AdapterId)
    requires Initial(w) && IsRun(w, acts)
    requires var ag := After(w, acts).agents; Live(ag, d) && Live(ag, e) && ag.adapters[d].ws == ag.adapters[e].ws
    ensures d == e
  {
    RunKeepsLive(w, acts);
  }

  // ---- pending merges ----

  /** The conflicts of a workspace since its pending merge was last cleared, counted over
      the run: an accepted merge that settles the workspace clears, any other counts. */
  ghost function ConflictsSince(w: World, acts: seq<Action>, id: Id): nat {
    if acts == [] then 0
    else
      Counted(After(w, acts[..|acts| - 1]), acts[|acts| - 1], id, ConflictsSince(w, acts[..|acts| - 1], id))
  }

  ghost function Counted(before: World, a: Action, id: Id, sofar: nat): nat {
    if a.NewWorkspace? && a.id == id then 0
    else if !a.MergeWs? || a.id != id || !MergeAccepted(before.db, before.git, id, a.tree, a.updateOk) then sofar
    else if MergeOutcome(before.db, id, a.tree).status.Some? then 0
    else sofar + 1
  }

  ghost predicate PendingCounts(ws: Workspace, conflicts: nat) {
    && (ws.pendingMerge == None <==> conflicts == 0)
    && (ws.pendingMerge.Some? ==> ws.pendingMerge.value.attempt == conflicts)
  }

  lemma PlacingKeepsPending(db: Db, git: Git, id: Id, ok: bool, other: Id)
    requires other in db.rows && other in Prepare(db, git, id, ok).0.rows
    ensures Prepare(db, git, id, ok).0.rows[other].pendingMerge == db.rows[other].pendingMerge
  {
  }

  lemma PendingOnlyChangesByMerging(w: World, a: Action, id: Id)
    requires Inv(w) && Enabled(w, a) && id in w.db.rows && id in Step(w, a).db.rows
    requires !(a.MergeWs? && a.id == id)
    ensures Step(w, a).db.rows[id].pendingMerge == w.db.rows[id].pendingMerge
  {
    if Evolving(a) {
      StepEvolves(w, a);
      assert RowEvolves(w.db.rows[id], Step(w, a).db.rows[id]);
    } else if a.MergeWs? {
      MergeInFull(w.db, w.git, a.id, a.tree, a.updateOk);
    } else if a.PrepareWs? {
      PlacingKeepsPending(w.db, w.git, a.id, a.worktreeOk, id);
    }
  }

  /** One accepted merge: a conflict within the limit counts, anything else settles. */
  lemma MergeCounts(db: Db, git: Git, id: Id, tree: MergeTree, ok: bool, n: nat)
    requires id in db.rows && RowOk(db.rows[id]) && PendingCounts(db.rows[id], n)
             && id in Merge(db, git, id, tree, ok).0.rows
    ensures var counted := if !MergeAccepted(db, git, id, tree, ok) then n
                           else if MergeOutcome(db, id, tree).status.Some? then 0
                           else n + 1;
            PendingCounts(Merge(db, git, id, tree, ok).0.rows[id], counted)
  {
    MergeInFull(db, git, id, tree, ok);
  }

  lemma StepCounts(w: World, a: Action, id: Id, n: nat)
    requires Inv(w) && Enabled(w, a) && id in Step(w, a).db.rows
    requires id in w.db.rows ==> PendingCounts(w.db.rows[id], n)
    requires a.NewWorkspace? && a.id == id ==> id !in w.db.rows
    ensures PendingCounts(Step(w, a).db.rows[id], Counted(w, a, id, n))
  {
    if id !in w.db.rows {
      NewRowsAreInserted(w, a, id);
    } else if a.MergeWs? && a.id == id {
      assert RowOk(w.db.rows[id]);
      MergeCounts(w.db, w.git, id, a.tree, a.updateOk, n);
    } else {
      PendingOnlyChangesByMerging(w, a, id);
    }
  }

  /** pending_merge is there exactly when a conflict is unsettled, and its attempt is the
      number of conflicts, never above the limit. */
  lemma {:induction false} PendingMergeCountsConflicts(w: World, acts: seq<Action>, id: Id)
    requires Initial(w) && IsRun(w, acts) && id in After(w, acts).db.rows
    ensures PendingCounts(After(w, acts).db.rows[id], ConflictsSince(w, acts, id))
    ensures ConflictsSince(w, acts, id) <= MAX_AUTO_MERGE_ATTEMPTS
  {
    if acts != [] {
      var front := acts[..|acts| - 1];
      RunKeeps(w, front);
      if id in After(w, front).db.rows {
        PendingMergeCountsConflicts(w, front, id);
      }
      StepCounts(After(w, front), acts[|acts| - 1], id, ConflictsSince(w, front, id));
    }
    RowIsSound(w, acts, id);
  }

  lemma NewRowsAreInserted(w: World, a: Action, id: Id)
    requires Inv(w) && Enabled(w, a) && id !in w.db.rows && id in Step(w, a).db.rows
    ensures a.NewWorkspace? && a.id == id && Step(w, a).db.rows[id].pendingMerge == None
  {
    if Evolving(a) {
      StepEvolves(w, a);
    } else if a.MergeWs? {
      MergeInFull(w.db, w.git, a.id, a.tree, a.updateOk);
    }
  }

  /** The conflict after the last allowed one gives up: conflict_stuck, nothing pending, no commit. */
  lemma NextConflictSticks(w: World, acts: seq<Action>, id: Id, ok: bool)
    requires Initial(w) && IsRun(w, acts)
    requires var db := After(w, acts).db; id in db.rows && Mergeable(db.rows[id].status)
    ensures var before, after := After(w, acts), Step(After(w, acts), MergeWs(id, Conflict, ok));
            && after.git == before.git
            && (after.db.rows[id].status == ConflictStuck <==> ConflictsSince(w, acts, id) == MAX_AUTO_MERGE_ATTEMPTS)
            && (after.db.rows[id].status == ConflictStuck ==> after.db.rows[id].pendingMerge == None)
  {
    RowIsSound(w, acts, id);
    PendingMergeCountsConflicts(w, acts, id);
    ConflictOutcome(After(w, acts).db, After(w, acts).git, id, ok, ConflictsSince(w, acts, id));
  }

  lemma RowIsSound(w: World, acts: seq<Action>, id: Id)
    requires Initial(w) && IsRun(w, acts) && id in After(w, acts).db.rows
    ensures var db := After(w, acts).db; RowOk(db.rows[id]) && db.rows[id].projectId in db.projects
  {
    RunKeeps(w, acts);
    assert NamesOk(After(w, acts).db, After(w, acts).git);
  }

  lemma ConflictOutcome(db: Db, git: Git, id: Id, ok: bool, n: nat)
    requires id in db.rows && Mergeable(db.rows[id].status) && db.rows[id].projectId in db.projects
    requires RowOk(db.rows[id]) && PendingCounts(db.rows[id], n) && n <= MAX_AUTO_MERGE_ATTEMPTS
    ensures var r := Merge(db, git, id, Conflict, ok);
            && r.1 == git && id in r.0.rows
            && (r.0.rows[id].status == ConflictStuck <==> n == MAX_AUTO_MERGE_ATTEMPTS)
            && (r.0.rows[id].status == ConflictStuck ==> r.0.rows[id].pendingMerge == None)
  {
    MergeInFull(db, git, id, Conflict, ok);
  }

  // ---- merges and git history ----

  /** The merge commits of a run, in the order they were made, are its transitions to
      merged: none is lost, none is made without one. */
  lemma MergesAreConserved(w: World, acts: seq<Action>)
    requires Initial(w) && IsRun(w, acts)
    ensures MergedBy(After(w, acts).git.commits) == MergedWrites(After(w, acts).db.writes)
  {
    RunKeeps(w, acts);
  }

  /** Merged is entered by a clean merge of a completed workspace and by nothing else; it
      adds one commit, whose parent is the target's previous tip, and moves no other ref. */
  lemma MergedExactlyByCleanMerge(w: World, a: Action)
    requires Inv(w) && Enabled(w, a)
    ensures var merges := a.MergeWs? && a.tree.Clean? && MergeAccepted(w.db, w.git, a.id, a.tree, a.updateOk);
            && MergedWrites(Step(w, a).db.writes) == MergedWrites(w.db.writes) + (if merges then [a.id] else [])
            && (merges ==> w.db.rows[a.id].status == Completed && OneCommitOnTarget(w, a.id, Step(w, a).git))
            && (a.MergeWs? && !merges ==> Step(w, a).git == w.git)
  {
    MergedByStep(w, a);
    if a.MergeWs? {
      MergeInFull(w.db, w.git, a.id, a.tree, a.updateOk);
      MergeCommits(w, a.id, a.tree, a.updateOk);
    } else {
      OtherStepsMergeNothing(w, a);
    }
  }

  /** One commit by this workspace, on the target's previous tip; no other ref moves. */
  predicate OneCommitOnTarget(w: World, id: Id, git': Git)
    requires id in w.db.rows && w.db.rows[id].projectId in w.db.projects
  {
    var row := w.db.rows[id];
    var proj := w.db.projects[row.projectId];
    var key := (proj.repoPath, if row.targetRef != "" then row.targetRef else proj.defaultBranch);
    && key in w.git.refs
    && git'.commits == w.git.commits + [Commit(Some(w.git.refs[key]), Some(id))]
    && git'.refs == w.git.refs[key := |w.git.commits|]
  }

  lemma MergedByStep(w: World, a: Action)
    requires Inv(w) && Enabled(w, a)
    ensures MergedBy(w.git.commits) == MergedWrites(w.db.writes)
    ensures MergedBy(Step(w, a).git.commits) == MergedWrites(Step(w, a).db.writes)
    ensures forall id :: id in w.db.rows ==> RowOk(w.db.rows[id])
    ensures ValidGit(w.git)
  {
    StepKeeps(w, a);
  }

  lemma OtherStepsMergeNothing(w: World, a: Action)
    requires Enabled(w, a) && !a.MergeWs? && ValidGit(w.git)
    ensures MergedBy(Step(w, a).git.commits) == MergedBy(w.git.commits)
  {
    if a.AgentCommits? {
      CommitGrows(w.git, a.repo, a.branch, None);
    }
  }

  lemma MergeCommits(w: World, id: Id, tree: MergeTree, ok: bool)
    requires ValidGit(w.git)
    ensures var git' := Merge(w.db, w.git, id, tree, ok).1;
            var merges := tree.Clean? && MergeAccepted(w.db, w.git, id, tree, ok);
            && MergedBy(git'.commits) == MergedBy(w.git.commits) + (if merges then [id] else [])
            && (merges ==> OneCommitOnTarget(w, id, git'))
  {
    MergeInFull(w.db, w.git, id, tree, ok);
    if tree.Clean? && MergeAccepted(w.db, w.git, id, tree, ok) {
      CommitGrows(w.git, RepoOf(w.db, id), Target(w.db, w.db.rows[id]), Some(id));
    }
  }

  /** Target history is append-only: between any two points of a run every commit is
      kept and every branch's earlier tip is an ancestor of its later one. */
  lemma {:induction false} TipsRemainAncestors(w: World, acts: seq<Action>, j: nat, k: nat)
    requires Initial(w) && IsRun(w, acts) && j <= k <= |acts|
    ensures GitGrows(After(w, acts[..j]).git, After(w, acts[..k]).git)
  {
    PrefixIsRun(w, acts, j);
    RunKeeps(w, acts[..j]);
    if j == k {
      NothingKeeps(After(w, acts[..j]));
    } else {
      TipsRemainAncestors(w, acts, j, k - 1);
      PrefixIsRun(w, acts, k - 1);
      RunKeeps(w, acts[..k - 1]);
      StepKeeps(After(w, acts[..k - 1]), acts[k - 1]);
      GrowthIsTransitive(After(w, acts[..j]).git, After(w, acts[..k - 1]).git, After(w, acts[..k]).git);
    }
  }

  // ---- names ----

  lemma SuffixesDiffer(a: string, b: string, x: string, y: string)
    requires |a| == |b| && x != y
    ensures a + x != b + y
  {
    assert (a + x)[|a|..] == x;
    assert (b + y)[|b|..] == y;
  }

  /** Two prepared workspaces never share a worktree path, nor a branch of one repository. */
  lemma PreparedNamesAreDistinct(w: World, acts: seq<Action>, id: Id, other: Id)
    requires Initial(w) && IsRun(w, acts) && id != other
    requires Prepared(After(w, acts).db, id) && Prepared(After(w, acts).db, other)
    ensures var db := After(w, acts).db;
            && id in db.rows && other in db.rows
            && db.rows[id].projectId in db.projects && db.rows[other].projectId in db.projects
            && db.rows[id].worktreePath != db.rows[other].worktreePath
            && (RepoOf(db, id) == RepoOf(db, other) ==> db.rows[id].branch != db.rows[other].branch)
  {
    RunKeeps(w, acts);
    var db, git := After(w, acts).db, After(w, acts).git;
    var mine := git.root + "/" + git.slug(RepoOf(db, id)) + "/";
    var theirs := git.root + "/" + git.slug(RepoOf(db, other)) + "/";
    SuffixesDiffer(mine, theirs, id, other);
    assert mine + id == WorktreePathFor(git, RepoOf(db, id), id);
    assert theirs + other == WorktreePathFor(git, RepoOf(db, other), other);
  }

  lemma IdleHasItsBranch(db: Db, git: Git, id: Id, base: string, ok: bool)
    requires NamesOk(db, git) && id in db.rows && db.rows[id].status == Idle
    ensures !CanAddWorktree(git, RepoOf(db, id), id, base, ok)
  {
    assert Prepared(db, id);
  }

  predicate CanPrepare(db: Db, git: Git, id: Id, ok: bool) {
    && id in db.rows && db.rows[id].projectId in db.projects
    && db.rows[id].status == Queued
    && CanAddWorktree(git, RepoOf(db, id), id, db.projects[db.rows[id].projectId].defaultBranch, ok)
  }

  /** Preparing succeeds exactly for a queued workspace whose branch name, eight characters
      of its id, is still free; a second Prepare of an idle one is not refused but fails it. */
  lemma PrepareSucceedsExactly(w: World, acts: seq<Action>, id: Id, ok: bool)
    requires Initial(w) && IsRun(w, acts)
    ensures var db, git := After(w, acts).db, After(w, acts).git;
            && (Prepare(db, git, id, ok).2 == NoError <==> CanPrepare(db, git, id, ok))
            && (id in db.rows && db.rows[id].status == Idle ==>
                  Prepare(db, git, id, ok).2 == WorktreeAddFailed
                    && Prepare(db, git, id, ok).0.rows[id].status == Failed)
  {
    RunKeeps(w, acts);
    PrepareCases(After(w, acts).db, After(w, acts).git, id, ok);
  }

  lemma PrepareCases(db: Db, git: Git, id: Id, ok: bool)
    requires NamesOk(db, git)
    ensures Prepare(db, git, id, ok).2 == NoError <==> CanPrepare(db, git, id, ok)
    ensures id in db.rows && db.rows[id].status == Idle ==>
              Prepare(db, git, id, ok).2 == WorktreeAddFailed && Prepare(db, git, id, ok).0.rows[id].status == Failed
  {
    if id in db.rows {
      var base := db.projects[db.rows[id].projectId].defaultBranch;
      if db.rows[id].status == Idle {
        IdleHasItsBranch(db, git, id, base, ok);
        PrepareRefused(db, git, id, ok);
      } else {
        PrepareFresh(db, git, id, ok);
      }
    }
  }

  lemma PrepareRefused(db: Db, git: Git, id: Id, ok: bool)
    requires id in db.rows && db.rows[id].projectId in db.projects && db.rows[id].status == Idle
    requires !CanAddWorktree(git, RepoOf(db, id), id, db.projects[db.rows[id].projectId].defaultBranch, ok)
    ensures Prepare(db, git, id, ok).2 == WorktreeAddFailed
    ensures id in Prepare(db, git, id, ok).0.rows && Prepare(db, git, id, ok).0.rows[id].status == Failed
  {
  }

  lemma PrepareFresh(db: Db, git: Git, id: Id, ok: bool)
    requires id in db.rows && db.rows[id].projectId in db.projects && db.rows[id].status != Idle
    ensures Prepare(db, git, id, ok).2 == NoError <==> CanPrepare(db, git, id, ok)
  {
  }

  // ---- the boot sweep ----

  lemma FirstIsMember<T>(s: seq<T>)
    requires s != []
    ensures s[0] in s
  {
  }

  lemma SweepSweeps(db: Db, ids: seq<Id>)
    requires O.AreOrphans(db, ids)
    ensures O.Sweeps(db, SweepIds(db, ids), ids)
  {
    assert forall i :: 0 <= i < |ids| ==> ids[i] in ids && O.IsOrphan(db, ids[i]);
    SweepTouches(db, ids);
    forall id | id in db.rows ensures O.IsOrphan(db, id) <==> id in ids {
    }
  }

  /** After the sweep no workspace is running, preparing, awaiting anything or resolving. */
  lemma SweepLeavesNoOrphan(db: Db, ids: seq<Id>)
    requires O.AreOrphans(db, ids)
    ensures forall id :: !O.IsOrphan(SweepIds(db, ids), id)
  {
    SweepSweeps(db, ids);
  }

  /** Whatever state a crash left: the sweep settles exactly the orphans, and a second one
      finds nothing. */
  lemma SweepSettlesOrphans(db: Db, ids: seq<Id>, again: seq<Id>)
    requires O.AreOrphans(db, ids) && O.AreOrphans(SweepIds(db, ids), again)
    ensures O.Sweeps(db, SweepIds(db, ids), ids) && again == []
  {
    SweepSweeps(db, ids);
    SweepLeavesNoOrphan(db, ids);
    if again != [] {
      FirstIsMember(again);
    }
  }
}
