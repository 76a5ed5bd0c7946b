/** One workspace's sessions and drains, with the two halves of cleanupSession as separate
    steps: the map entry is deleted first, its context cancelled after
    (internal/agent/manager.go). */
module Sessions {
  import opened Wrappers
  import opened Status
  import opened Events

  type DrainId = nat

  /** Where a drain is: its select, an event it took, one it has passed on, or gone. */
  datatype Pc = Selecting | Handling(ev: AgentEvent) | Handled(ev: AgentEvent) | Gone

  datatype Drain = Drain(buf: seq<AgentEvent>, closed: bool, cancelled: bool, pc: Pc)

  /** `victims` are sessions deleted from the map whose contexts are not cancelled yet. */
  datatype State = State(status: Status, session: Option<DrainId>, drains: map<DrainId, Drain>, victims: set<DrainId>)

  /** `CallWrites` is any other call's status write; `Cleanup` is the first half of
      cleanupSession in Stop or in a Start whose prompt failed. */
  datatype Action =
    | Start(d: DrainId)
    | Prompt
    | Stop
    | CallWrites(status: Status)
    | Cleanup
    | CancelVictim(d: DrainId)
    | Emit(d: DrainId, ev: AgentEvent)
    | Close(d: DrainId)
    | Take(d: DrainId)
    | Finish(d: DrainId)
    | Leave(d: DrainId)

  predicate At(s: State, d: DrainId, pc: Pc) {
    d in s.drains && s.drains[d].pc == pc
  }

  predicate Enabled(s: State, a: Action) {
    match a
    case Start(d) => d !in s.drains && CanTransition(s.status, Running)
    case Prompt => s.session.Some? && CanTransition(s.status, Running)
    case Stop => s.session.Some?
    case CallWrites(_) => true
    case Cleanup => true
    case CancelVictim(d) => d in s.victims
    case Emit(d, _) => d in s.drains && !s.drains[d].closed && |s.drains[d].buf| < CHANNEL_CAP
    case Close(d) => d in s.drains
    case Take(d) => At(s, d, Selecting) && s.drains[d].buf != []
    case Finish(d) => d in s.drains && s.drains[d].pc.Handled?
    case Leave(d) => At(s, d, Selecting) && (s.drains[d].cancelled || (s.drains[d].closed && s.drains[d].buf == []))
  }

  function With(s: State, d: DrainId, drain: Drain): State {
    s.(drains := s.drains[d := drain])
  }

  function Cancelled(s: State, d: DrainId): State {
    if d in s.drains then With(s, d, s.drains[d].(cancelled := true)) else s
  }

  function Closed(s: State, d: DrainId): State {
    if d in s.drains then With(s, d, s.drains[d].(closed := true)) else s
  }

  /** The first half of cleanupSession: whichever session the map holds. */
  function Deleted(s: State): State {
    match s.session
    case None => s
    case Some(d) => s.(session := None, victims := s.victims + {d})
  }

  /** The status after a drain's event: turn_complete is written unguarded. */
  function Finished(status: Status, ev: AgentEvent): Status {
    if !IsTerminalEvent(ev) then status
    else match DoneReasonOf(ev)
      case TurnComplete => AwaitingInput
      case Stopped => status
      case _ => if IsTerminal(status) then status else Failed
  }

  function Step(s: State, a: Action): State
    requires Enabled(s, a)
  {
    match a
    case Start(d) =>
      if s.session.Some? then Closed(s.(status := Running), s.session.value)
      else With(s.(status := Running, session := Some(d)), d, Drain([], false, false, Selecting))
    case Prompt => s.(status := Running)
    case Stop =>
      var stopped := Closed(Cancelled(s, s.session.value), s.session.value);
      if CanTransition(s.status, Status.Cancelled) then stopped.(status := Status.Cancelled) else stopped
    case CallWrites(status) => s.(status := status)
    case Cleanup => Deleted(s)
    case CancelVictim(d) => Cancelled(s, d).(victims := s.victims - {d})
    case Emit(d, ev) => With(s, d, s.drains[d].(buf := s.drains[d].buf + [ev]))
    case Close(d) => Closed(s, d)
    case Take(d) => With(s, d, s.drains[d].(buf := s.drains[d].buf[1..], pc := Handling(s.drains[d].buf[0])))
    case Finish(d) =>
      With(s.(status := Finished(s.status, s.drains[d].pc.ev)), d, s.drains[d].(pc := Selecting))
    case Leave(d) => Deleted(With(s, d, s.drains[d].(pc := Gone)))
  }

  /** The event has been persisted, counted and broadcast, as far as that goes. */
  function PassedOn(s: State, d: DrainId): State
    requires d in s.drains && s.drains[d].pc.Handling?
  {
    With(s, d, s.drains[d].(pc := Handled(s.drains[d].pc.ev)))
  }

  // ---- live drains ----

  /** A drain whose database calls can succeed: it runs under a context not cancelled. */
  predicate Live(s: State, d: DrainId) {
    d in s.drains && !s.drains[d].cancelled && s.drains[d].pc != Gone
  }

  /** A live drain is the session's, or its session was deleted and is about to be cancelled. */
  ghost predicate LiveOk(s: State) {
    forall d: DrainId :: Live(s, d) ==> s.session == Some(d) || d in s.victims
  }

  lemma StepKeepsLive(s: State, a: Action)
    requires LiveOk(s) && Enabled(s, a)
    ensures LiveOk(Step(s, a))
  {
    var s' := Step(s, a);
    forall d: DrainId | Live(s', d) ensures s'.session == Some(d) || d in s'.victims {
      assert a != Start(d) ==> Live(s, d);
    }
  }

  /** No Start between the two halves of a cleanupSession. */
  predicate OutsideGap(s: State, a: Action) {
    a.Start? ==> s.victims == {}
  }

  ghost predicate AtMostOneLive(s: State) {
    forall d: DrainId, e: DrainId :: Live(s, d) && Live(s, e) ==> d == e
  }

  ghost predicate GapFree(s: State) {
    && LiveOk(s)
    && (s.session.Some? ==> s.victims == {})
    && (forall d, e :: d in s.victims && e in s.victims ==> d == e)
  }

  lemma GapFreeIsOneLive(s: State)
    requires GapFree(s)
    ensures AtMostOneLive(s)
  {
    forall d: DrainId, e: DrainId | Live(s, d) && Live(s, e) ensures d == e {
      assert s.session == Some(d) || d in s.victims;
      assert s.session == Some(e) || e in s.victims;
    }
  }

  lemma OutsideGapKeeps(s: State, a: Action)
    requires GapFree(s) && Enabled(s, a) && OutsideGap(s, a)
    ensures GapFree(Step(s, a))
  {
    StepKeepsLive(s, a);
  }

  lemma PassedOnKeeps(s: State, d: DrainId)
    requires d in s.drains && s.drains[d].pc.Handling?
    ensures LiveOk(s) ==> LiveOk(PassedOn(s, d))
    ensures GapFree(s) ==> GapFree(PassedOn(s, d))
  {
    assert forall e: DrainId :: Live(PassedOn(s, d), e) <==> Live(s, e);
  }

  // ---- single steps, from states written out ----

  type Drains = map<DrainId, Drain>

  const IDLE := Drain([], false, false, Selecting)

  const DONE := AgentEvent(EventDone, "", map["reason" := Str("turn_complete")])

  lemma DoneIsTurnComplete()
    ensures IsTerminalEvent(DONE) && DoneReasonOf(DONE) == TurnComplete && CostOf(DONE) == None
  {
  }

  lemma Twice(ds: Drains, d: DrainId, x: Drain, y: Drain)
    ensures ds[d := x][d := y] == ds[d := y]
  {
  }

  lemma Started(status: Status, ds: Drains, victims: set<DrainId>, d: DrainId)
    requires CanTransition(status, Running) && d !in ds
    ensures var s := State(status, None, ds, victims);
            Enabled(s, Start(d)) && Step(s, Start(d)) == State(Running, Some(d), ds[d := IDLE], victims)
  {
  }

  lemma Emitted(s: State, ds: Drains, d: DrainId, x: Drain, ev: AgentEvent)
    requires s.drains == ds[d := x] && !x.closed && |x.buf| < CHANNEL_CAP
    ensures Enabled(s, Emit(d, ev)) && Step(s, Emit(d, ev)) == s.(drains := ds[d := x.(buf := x.buf + [ev])])
  {
    Twice(ds, d, x, x.(buf := x.buf + [ev]));
  }

  lemma Taken(s: State, ds: Drains, d: DrainId, x: Drain)
    requires s.drains == ds[d := x] && x.pc == Selecting && x.buf != []
    ensures Enabled(s, Take(d))
            && Step(s, Take(d)) == s.(drains := ds[d := x.(buf := x.buf[1..], pc := Handling(x.buf[0]))])
  {
    Twice(ds, d, x, x.(buf := x.buf[1..], pc := Handling(x.buf[0])));
  }

  lemma PassedOnAt(s: State, ds: Drains, d: DrainId, x: Drain)
    requires s.drains == ds[d := x] && x.pc.Handling?
    ensures PassedOn(s, d) == s.(drains := ds[d := x.(pc := Handled(x.pc.ev))])
  {
    Twice(ds, d, x, x.(pc := Handled(x.pc.ev)));
  }

  lemma TurnEnded(s: State, ds: Drains, d: DrainId, x: Drain)
    requires s.drains == ds[d := x] && x.pc == Handled(DONE)
    ensures Enabled(s, Finish(d))
            && Step(s, Finish(d)) == s.(status := AwaitingInput, drains := ds[d := x.(pc := Selecting)])
  {
    DoneIsTurnComplete();
    Twice(ds, d, x, x.(pc := Selecting));
  }

  lemma StoppedAt(ds: Drains, d: DrainId, x: Drain)
    ensures var s := State(Running, Some(d), ds[d := x], {});
            && Enabled(s, Stop)
            && Step(s, Stop) == State(Status.Cancelled, Some(d), ds[d := x.(closed := true, cancelled := true)], {})
  {
    Twice(ds, d, x, x.(cancelled := true));
    Twice(ds, d, x.(cancelled := true), x.(closed := true, cancelled := true));
  }

  lemma CleanedUpAt(status: Status, ds: Drains, d: DrainId, x: Drain)
    requires x.cancelled
    ensures var s := State(status, Some(d), ds[d := x], {});
            && Step(s, Cleanup) == State(status, None, ds[d := x], {d})
            && Enabled(Step(s, Cleanup), CancelVictim(d))
            && Step(Step(s, Cleanup), CancelVictim(d)) == State(status, None, ds[d := x], {})
  {
    Twice(ds, d, x, x.(cancelled := true));
    assert x.(cancelled := true) == x;
    assert {d} - {d} == {};
  }

  lemma LeftAt(status: Status, ds: Drains, d: DrainId, x: Drain, e: DrainId)
    requires x.pc == Selecting && x.cancelled
    ensures var s := State(status, Some(e), ds[d := x], {});
            && Enabled(s, Leave(d))
            && Step(s, Leave(d)) == State(status, None, ds[d := x.(pc := Gone)], {e})
  {
    Twice(ds, d, x, x.(pc := Gone));
    assert {} + {e} == {e};
  }
}
