/** Model B: Stop against drains and other calls, every database access, channel operation
    and cancellation its own step. */
module StopRace {
  import opened Wrappers
  import opened Status
  import opened Events

  /** Where Stop is: cancel, close, read the status, write cancelled, clean up. */
  datatype StopPc = NotStopped | ContextCancelled | ChannelClosed | StatusRead(seen: Status) | StatusWritten | StopDone

  datatype Origin = FromClosed | FromEvent

  /** Where the drain is: its select, one event, its closed branch, markFailed's read and
      write, the deferred cleanup. */
  datatype DrainPc =
    | Selecting
    | Handling(ev: AgentEvent)
    | Finishing(reason: DoneReason)
    | SawClosed
    | FailReading(origin: Origin)
    | FailWriting(origin: Origin, seen: Status)
    | Leaving
    | Gone

  datatype Closer = Nobody | ByStop | ByOther

  type CallId = nat

  /** Another call between the read its guard looked at and its write. */
  datatype Call = Call(seen: Status, to: Status)

  datatype Writer = ByDone | ByClosed | ByCall

  /** A status written after Stop's own write. */
  datatype Late = Late(writer: Writer, status: Status)

  /** The last four fields record who did what; no step reads them. */
  datatype State = State(
    status: Status,
    cancelled: bool,
    buf: seq<AgentEvent>,
    closed: bool,
    stop: StopPc,
    drain: DrainPc,
    calls: map<CallId, Call>,
    closer: Closer,
    seen: Option<Status>,
    closedFailures: nat,
    later: seq<Late>)

  datatype StepKind =
    | StopCancels
    | StopCloses
    | StopReads
    | StopWrites
    | StopCleansUp
    | AdapterEmits(ev: AgentEvent)
    | AdapterCloses
    | DrainTakes
    | DrainHandles
    | DrainFinishes
    | DrainSeesClosed
    | DrainReadsStatus
    | DrainFailReads
    | DrainFailWrites
    | DrainSeesCancelled
    | DrainLeaves
    | OlderDrainEndsTurn
    | CallReads(c: CallId, to: Status)
    | CallWrites(c: CallId, next: Option<Status>)

  /** `OlderDrainEndsTurn` is the drain of an earlier session of the workspace, with a
      turn_complete left over; what such a drain does under a guard is one of the calls. */
  predicate Enabled(s: State, k: StepKind) {
    match k
    case StopCancels => s.stop == NotStopped
    case StopCloses => s.stop == ContextCancelled
    case StopReads => s.stop == ChannelClosed
    case StopWrites => s.stop.StatusRead?
    case StopCleansUp => s.stop == StatusWritten
    case AdapterEmits(_) => !s.closed
    case AdapterCloses => !s.closed
    case DrainTakes => s.drain == Selecting && s.buf != []
    case DrainHandles => s.drain.Handling?
    case DrainFinishes => s.drain.Finishing?
    case DrainSeesClosed => s.drain == Selecting && s.buf == [] && s.closed
    case DrainReadsStatus => s.drain == SawClosed
    case DrainFailReads => s.drain.FailReading?
    case DrainFailWrites => s.drain.FailWriting?
    case DrainSeesCancelled => s.drain == Selecting && s.cancelled
    case DrainLeaves => s.drain == Leaving
    case OlderDrainEndsTurn => true
    case CallReads(c, _) => c !in s.calls
    case CallWrites(c, _) => c in s.calls
  }

  function AfterFail(origin: Origin): DrainPc {
    if origin == FromClosed then Leaving else Selecting
  }

  /** What a guard lets through: an edge of the table, or markFailed from a live status. */
  predicate Guard(from: Status, to: Status) {
    CanTransition(from, to) || (to == Failed && !IsTerminal(from))
  }

  /** A status write by anyone but Stop. */
  function Written(s: State, writer: Writer, status: Status): State {
    var after := s.stop == StatusWritten || s.stop == StopDone;
    s.(status := status, later := if after then s.later + [Late(writer, status)] else s.later)
  }

  function Step(s: State, k: StepKind): State
    requires Enabled(s, k)
  {
    match k
    case StopCancels => s.(cancelled := true, stop := ContextCancelled)
    case StopCloses =>
      s.(closed := true, stop := ChannelClosed, closer := if s.closed then s.closer else ByStop)
    case StopReads => s.(stop := StatusRead(s.status), seen := Some(s.status))
    case StopWrites =>
      var seen := s.stop.seen;
      s.(stop := StatusWritten,
         status := if !IsTerminal(seen) && CanTransition(seen, Cancelled) then Cancelled else s.status)
    case StopCleansUp => s.(stop := StopDone)
    case AdapterEmits(ev) => s.(buf := s.buf + [ev])
    case AdapterCloses => s.(closed := true, closer := ByOther)
    case DrainTakes => s.(drain := Handling(s.buf[0]), buf := s.buf[1..])
    case DrainHandles =>
      s.(drain := if IsTerminalEvent(s.drain.ev) then Finishing(DoneReasonOf(s.drain.ev)) else Selecting)
    case DrainFinishes => Finish(s)
    case DrainSeesClosed => s.(drain := SawClosed)
    // The read runs under the session's context: cancelled, it returns an error.
    case DrainReadsStatus =>
      s.(drain := if s.cancelled || IsTerminal(s.status) then Leaving else FailReading(FromClosed))
    case DrainFailReads =>
      s.(drain := if IsTerminal(s.status) then AfterFail(s.drain.origin) else FailWriting(s.drain.origin, s.status))
    case DrainFailWrites =>
      var closed := s.drain.origin == FromClosed;
      Written(s, if closed then ByClosed else ByDone, Failed)
      .(drain := AfterFail(s.drain.origin), closedFailures := s.closedFailures + if closed then 1 else 0)
    case DrainSeesCancelled => s.(drain := Leaving)
    case DrainLeaves => s.(drain := Gone, cancelled := true)
    case OlderDrainEndsTurn => Written(s, ByDone, AwaitingInput)
    case CallReads(c, to) => if Guard(s.status, to) then s.(calls := s.calls[c := Call(s.status, to)]) else s
    case CallWrites(c, next) =>
      // A second write of one call, as in Prepare, is guarded by the status it wrote itself.
      var to := s.calls[c].to;
      Written(s, ByCall, to)
      .(calls := if next.Some? && Guard(to, next.value) then s.calls[c := Call(to, next.value)] else s.calls - {c})
  }

  /** handleTerminal, which does not look at the session's context. */
  function Finish(s: State): State
    requires s.drain.Finishing?
  {
    match s.drain.reason
    case TurnComplete => Written(s, ByDone, AwaitingInput).(drain := Selecting)
    case Stopped => s.(drain := Selecting)
    case _ => s.(drain := FailReading(FromEvent))
  }

  predicate Initial(s: State) {
    && !s.cancelled && !s.closed && s.buf == [] && s.stop == NotStopped && s.drain == Selecting && s.calls == map[]
    && s.closer == Nobody && s.seen == None && s.closedFailures == 0 && s.later == []
  }

  ghost predicate IsRun(s: State, ks: seq<StepKind>)
    decreases |ks|
  {
    ks == [] || (Enabled(s, ks[0]) && IsRun(Step(s, ks[0]), ks[1..]))
  }

  ghost function After(s: State, ks: seq<StepKind>): State
    requires IsRun(s, ks)
    decreases |ks|
  {
    if ks == [] then s else After(Step(s, ks[0]), ks[1..])
  }

  // ---- invariants ----

  predicate Blaming(pc: DrainPc) {
    (pc.FailReading? || pc.FailWriting?) && pc.origin == FromClosed
  }

  /** Stop cancels before it closes, so a channel closed by Stop has a cancelled context;
      only a channel closed by someone else gets the drain into its failure branch. */
  predicate CloseOk(s: State) {
    && (s.closer == Nobody <==> !s.closed)
    && (s.closer == ByStop ==> s.cancelled)
    && (!s.stop.NotStopped? ==> s.cancelled)
    && (s.drain == SawClosed ==> s.closed)
    && (Blaming(s.drain) ==> s.closer == ByOther)
    && (s.closedFailures > 0 ==> s.closer == ByOther)
  }

  lemma CloseStep(s: State, k: StepKind)
    requires CloseOk(s) && Enabled(s, k)
    ensures CloseOk(Step(s, k))
  {
  }

  predicate HasWritten(s: State) {
    s.stop == StatusWritten || s.stop == StopDone
  }

  /** Once Stop has written, the status is cancelled or what was written last since. */
  predicate StopOk(s: State) {
    && (s.stop.StatusRead? ==> s.seen == Some(s.stop.seen))
    && (s.seen.Some? <==> s.stop.StatusRead? || HasWritten(s))
    && (!HasWritten(s) ==> s.later == [])
    && (HasWritten(s) && CanTransition(s.seen.value, Cancelled) ==>
          s.status == if s.later == [] then Cancelled else s.later[|s.later| - 1].status)
  }

  predicate IsStops(k: StepKind) {
    k == StopCancels || k == StopCloses || k == StopReads || k == StopWrites || k == StopCleansUp
  }

  lemma OwnStep(s: State, k: StepKind)
    requires StopOk(s) && Enabled(s, k) && IsStops(k)
    ensures StopOk(Step(s, k))
  {
    if s.stop.StatusRead? {
      NoWayOut(s.stop.seen);
    }
  }

  lemma WriteKeepsStop(s: State, t: State, writer: Writer, status: Status)
    requires StopOk(s)
    requires t.stop == s.stop && t.seen == s.seen
    requires t.status == Written(s, writer, status).status && t.later == Written(s, writer, status).later
    ensures StopOk(t)
  {
  }

  lemma NoWriteKeepsStop(s: State, t: State)
    requires StopOk(s) && t.stop == s.stop && t.seen == s.seen && t.status == s.status && t.later == s.later
    ensures StopOk(t)
  {
  }

  lemma StopStep(s: State, k: StepKind)
    requires StopOk(s) && Enabled(s, k)
    ensures StopOk(Step(s, k))
  {
    if IsStops(k) {
      OwnStep(s, k);
    } else if EndsTurn(s, k) {
      WriteKeepsStop(s, Step(s, k), ByDone, AwaitingInput);
    } else if k.CallWrites? {
      WriteKeepsStop(s, Step(s, k), ByCall, s.calls[k.c].to);
    } else if k == DrainFailWrites {
      WriteKeepsStop(s, Step(s, k), if s.drain.origin == FromClosed then ByClosed else ByDone, Failed);
    } else {
      NoWriteKeepsStop(s, Step(s, k));
    }
  }

  /** Who writes what after Stop. */
  predicate LaterOk(s: State) {
    forall i :: 0 <= i < |s.later| ==>
      && (s.later[i].writer == ByDone ==> s.later[i].status == AwaitingInput || s.later[i].status == Failed)
      && (s.later[i].writer == ByClosed ==> s.closer == ByOther)
  }

  lemma LaterStep(s: State, k: StepKind)
    requires LaterOk(s) && CloseOk(s) && Enabled(s, k)
    ensures LaterOk(Step(s, k))
  {
  }

  /** Every write under way was let through by a guard on the status it read. */
  ghost predicate GuardsOk(s: State) {
    && (forall c :: c in s.calls ==> Guard(s.calls[c].seen, s.calls[c].to))
    && (s.drain.FailWriting? ==> !IsTerminal(s.drain.seen))
  }

  lemma GuardsStep(s: State, k: StepKind)
    requires GuardsOk(s) && Enabled(s, k)
    ensures GuardsOk(Step(s, k))
  {
  }

  ghost predicate Ok(s: State) {
    CloseOk(s) && StopOk(s) && LaterOk(s) && GuardsOk(s)
  }

  lemma {:induction false} RunKeeps(s: State, ks: seq<StepKind>)
    requires Ok(s) && IsRun(s, ks)
    ensures Ok(After(s, ks))
    decreases |ks|
  {
    if ks != [] {
      CloseStep(s, ks[0]);
      StopStep(s, ks[0]);
      LaterStep(s, ks[0]);
      GuardsStep(s, ks[0]);
      RunKeeps(Step(s, ks[0]), ks[1..]);
    }
  }

  // ---- failures ----

  /** In every interleaving, if nobody but Stop closes the channel, the closed branch of
      the drain never records the stop as a failure. */
  lemma StopIsNotRecordedAsFailure(s: State, ks: seq<StepKind>)
    requires Initial(s) && IsRun(s, ks)
    ensures After(s, ks).closer != ByOther ==> After(s, ks).closedFailures == 0
  {
    RunKeeps(s, ks);
  }

  ghost predicate Reaches(s: State, t: State) {
    exists ks :: IsRun(s, ks) && After(s, ks) == t
  }

  lemma {:induction false} OneMore(s: State, ks: seq<StepKind>, k: StepKind)
    requires IsRun(s, ks) && Enabled(After(s, ks), k)
    ensures IsRun(s, ks + [k]) && After(s, ks + [k]) == Step(After(s, ks), k)
    decreases |ks|
  {
    if ks == [] {
      assert [k][1..] == [] && ks + [k] == [k];
    } else {
      assert (ks + [k])[1..] == ks[1..] + [k];
      OneMore(Step(s, ks[0]), ks[1..], k);
    }
  }

  lemma Stays(s: State)
    ensures Reaches(s, s)
  {
    assert IsRun(s, []) && After(s, []) == s;
  }

  lemma Then(s: State, t: State, k: StepKind) returns (u: State)
    requires Reaches(s, t) && Enabled(t, k)
    ensures u == Step(t, k) && Reaches(s, u)
  {
    var ks :| IsRun(s, ks) && After(s, ks) == t;
    OneMore(s, ks, k);
    u := Step(t, k);
  }

  /** The hypothesis is needed: a channel closed by the adapter itself, under a live context
      and an unfinished workspace, can be recorded as a failure. */
  lemma OtherCloseIsRecorded(s: State) returns (t: State)
    requires Initial(s) && !IsTerminal(s.status)
    ensures Reaches(s, t) && t.status == Failed && t.closedFailures == 1
  {
    Stays(s);
    t := Then(s, s, AdapterCloses);
    t := Then(s, t, DrainSeesClosed);
    t := Then(s, t, DrainReadsStatus);
    t := Then(s, t, DrainFailReads);
    t := Then(s, t, DrainFailWrites);
  }

  // ---- what Stop leaves behind ----

  /** A workspace that Stop found cancellable is cancelled if and only if no status has been
      written since, or the last one was cancelled again. Apart from other calls and a channel
      closed by the adapter, what was written since was a done event still handled: so then
      it is cancelled if and only if there was none. */
  lemma StoppedIsCancelled(s: State, ks: seq<StepKind>)
    requires Initial(s) && IsRun(s, ks)
    requires After(s, ks).stop == StopDone
    ensures var t := After(s, ks);
            && t.seen.Some?
            && (CanTransition(t.seen.value, Cancelled) ==>
                  && (t.status == Cancelled <==> t.later == [] || t.later[|t.later| - 1].status == Cancelled)
                  && (t.closer != ByOther && (forall i :: 0 <= i < |t.later| ==> t.later[i].writer != ByCall) ==>
                        && (t.status == Cancelled <==> t.later == [])
                        && forall i :: 0 <= i < |t.later| ==> t.later[i].writer == ByDone))
  {
    RunKeeps(s, ks);
    var t := After(s, ks);
    if t.later != [] {
      assert t.later[|t.later| - 1].writer == ByDone ==> t.later[|t.later| - 1].status != Cancelled;
    }
  }

  // ---- stale guards ----

  /** The status a step writes after a guard, and the status the guard looked at. */
  function GuardedWrite(s: State, k: StepKind): Option<Call>
    requires Enabled(s, k)
  {
    match k
    case StopWrites => if CanTransition(s.stop.seen, Cancelled) then Some(Call(s.stop.seen, Cancelled)) else None
    case DrainFailWrites => Some(Call(s.drain.seen, Failed))
    case CallWrites(c, _) => Some(s.calls[c])
    case _ => None
  }

  predicate EndsTurn(s: State, k: StepKind) {
    k == OlderDrainEndsTurn || (k == DrainFinishes && s.drain == Finishing(TurnComplete))
  }

  lemma GuardedStep(s: State, k: StepKind)
    requires GuardsOk(s) && Enabled(s, k) && GuardedWrite(s, k).Some?
    ensures var w := GuardedWrite(s, k).value;
            Guard(w.seen, w.to) && !IsTerminal(w.seen) && Step(s, k).status == w.to && !EndsTurn(s, k)
  {
    NoWayOut(GuardedWrite(s, k).value.seen);
  }

  lemma UnguardedStop(s: State)
    requires Enabled(s, StopWrites) && GuardedWrite(s, StopWrites).None?
    ensures Step(s, StopWrites).status == s.status
  {
  }

  lemma UnguardedStep(s: State, k: StepKind)
    requires Enabled(s, k) && GuardedWrite(s, k).None?
    ensures Step(s, k).status == if EndsTurn(s, k) then AwaitingInput else s.status
  {
    if k == StopWrites {
      UnguardedStop(s);
    } else if k == DrainFinishes {
      assert Step(s, k) == Finish(s);
    }
  }

  /** In every reachable state: a step changes the status exactly when it ends a turn or makes
      a write to another status, and that write was let through by a guard on the status its
      writer had read. */
  lemma StatusChangesExactly(start: State, ks: seq<StepKind>, k: StepKind)
    requires Initial(start) && IsRun(start, ks) && Enabled(After(start, ks), k)
    ensures var s := After(start, ks);
            var w := GuardedWrite(s, k);
            && (Step(s, k).status != s.status <==>
                  (EndsTurn(s, k) && s.status != AwaitingInput) || (w.Some? && w.value.to != s.status))
            && (w.Some? ==> Guard(w.value.seen, w.value.to))
  {
    RunKeeps(start, ks);
    var s := After(start, ks);
    if GuardedWrite(s, k).Some? {
      GuardedStep(s, k);
    } else {
      UnguardedStep(s, k);
    }
  }

  /** A terminal status is left by exactly two kinds of step: a drain that ends a turn, and a
      write whose guard read an earlier status. */
  lemma TerminalChangesExactly(start: State, ks: seq<StepKind>, k: StepKind)
    requires Initial(start) && IsRun(start, ks) && Enabled(After(start, ks), k) && IsTerminal(After(start, ks).status)
    ensures var s := After(start, ks);
            var w := GuardedWrite(s, k);
            && (Step(s, k).status != s.status <==> EndsTurn(s, k) || (w.Some? && w.value.to != s.status))
            && (w.Some? ==> w.value.seen != s.status)
  {
    RunKeeps(start, ks);
    var s := After(start, ks);
    if GuardedWrite(s, k).Some? {
      GuardedStep(s, k);
    } else {
      UnguardedStep(s, k);
    }
  }

  const FAILED_EVENT := AgentEvent(EventDone, "", map["reason" := Str("error")])

  lemma FailSeen(s: State) returns (t: State)
    requires Initial(s)
    ensures Reaches(s, t) && t == s.(drain := Finishing(ErrorReason))
  {
    assert IsTerminalEvent(FAILED_EVENT) && DoneReasonOf(FAILED_EVENT) == ErrorReason;
    Stays(s);
    t := Then(s, s, AdapterEmits(FAILED_EVENT));
    t := Then(s, t, DrainTakes);
    t := Then(s, t, DrainHandles);
  }

  lemma FailReads(s: State) returns (t: State)
    requires Initial(s) && s.status == Running
    ensures Reaches(s, t) && t == s.(drain := FailWriting(FromEvent, Running))
  {
    t := FailSeen(s);
    t := Then(s, t, DrainFinishes);
    t := Then(s, t, DrainFailReads);
  }

  /** It happens: markFailed and Stop both read running; the failure is written, and then
      overwritten by cancelled. */
  lemma FailedThenCancelled(s: State) returns (t: State)
    requires Initial(s) && s.status == Running
    ensures Reaches(s, t) && t.status == Failed
    ensures Enabled(t, StopWrites) && Step(t, StopWrites).status == Cancelled
  {
    t := FailReads(s);
    t := Then(s, t, StopCancels);
    t := Then(s, t, StopCloses);
    t := Then(s, t, StopReads);
    t := Then(s, t, DrainFailWrites);
  }

  lemma CallUnderWay(s: State, t: State, c: CallId, to: Status) returns (u: State)
    requires Reaches(s, t) && c !in t.calls && CanTransition(t.status, to)
    ensures Reaches(s, u) && u == t.(calls := t.calls[c := Call(t.status, to)])
  {
    u := Then(s, t, CallReads(c, to));
  }

  lemma CallLands(s: State, t: State, c: CallId) returns (u: State)
    requires Reaches(s, t) && c in t.calls
    ensures Reaches(s, u) && u.status == t.calls[c].to && u.calls == t.calls - {c}
  {
    u := Then(s, t, CallWrites(c, None));
  }

  /** And between calls: SendPrompt reads awaiting_input, Cancel reads it too and writes
      cancelled, and then SendPrompt writes running. */
  lemma CancelledThenRunning(s: State, prompt: CallId, cancel: CallId) returns (t: State, u: State)
    requires s.status == AwaitingInput && prompt != cancel && prompt !in s.calls && cancel !in s.calls
    ensures Reaches(s, t) && t.status == Cancelled
    ensures Reaches(t, u) && u.status == Running
  {
    Stays(s);
    assert CanTransition(AwaitingInput, Running) && CanTransition(AwaitingInput, Cancelled);
    t := CallUnderWay(s, s, prompt, Running);
    t := CallUnderWay(s, t, cancel, Cancelled);
    t := CallLands(s, t, cancel);
    Stays(t);
    u := CallLands(t, t, prompt);
  }
}
