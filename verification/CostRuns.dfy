/** Runs of the ledger that lose a cost, from every fresh start, step after step: a Start
    between the two halves of a cleanupSession lets two live drains read the same totals, and
    a Stop between an event's insert and its cost's read leaves the event in the log only
    (internal/agent/manager.go). */
module CostRuns {
  import opened Wrappers
  import opened Events
  import opened Status
  import opened CostLedger
  import Sessions

  // ---- the gap is real ----

  ghost predicate Reaches(s: State, t: State) {
    exists acts :: IsRun(s, acts) && After(s, acts) == t
  }

  lemma {:induction false} OneMoreStep(s: State, acts: seq<Action>, a: Action)
    requires IsRun(s, acts) && Enabled(After(s, acts), a)
    ensures IsRun(s, acts + [a]) && After(s, acts + [a]) == Step(After(s, acts), a)
    decreases |acts|
  {
    if acts == [] {
      assert [a][1..] == [] && acts + [a] == [a];
    } else {
      assert (acts + [a])[1..] == acts[1..] + [a];
      OneMoreStep(Step(s, acts[0]), acts[1..], a);
    }
  }

  lemma Then(s: State, t: State, a: Action) returns (u: State)
    requires Reaches(s, t) && Enabled(t, a)
    ensures u == Step(t, a) && Reaches(s, u)
  {
    var acts :| IsRun(s, acts) && After(s, acts) == t;
    OneMoreStep(s, acts, a);
    u := Step(t, a);
  }

  lemma Stays(s: State)
    ensures Reaches(s, s)
  {
    assert IsRun(s, []) && After(s, []) == s;
  }

  /** What a session's step leaves alone. */
  predicate SameMoney(s: State, t: State) {
    && TotalsOf(t.row) == TotalsOf(s.row) && t.drains == s.drains && t.counted == s.counted && t.lost == s.lost
    && t.skew == s.skew
  }

  lemma Ses(s: State, t: State, a: Sessions.Action) returns (u: State)
    requires Reaches(s, t) && Sessions.Enabled(t.ses, a)
    ensures Reaches(s, u) && u.ses == Sessions.Step(t.ses, a) && SameMoney(t, u) && u.log == t.log
  {
    u := Then(s, t, Session(a));
  }

  /** A drain gets through an event that is no cost. */
  lemma PassOn(s: State, t: State, d: DrainId, ok: bool) returns (u: State)
    requires Reaches(s, t) && Enabled(t, Persist(d, ok)) && CostOf(t.ses.drains[d].pc.ev) == None
    ensures Reaches(s, u) && u.ses == Sessions.PassedOn(t.ses, d) && SameMoney(t, u)
  {
    u := Then(s, t, Persist(d, ok));
    assert t.drains - {d} == t.drains;
  }

  /** A drain gets to its next event. */
  lemma NextEvent(s: State, t: State, ds: Sessions.Drains, d: DrainId, x: Sessions.Drain) returns (u: State)
    requires Reaches(s, t) && t.ses.drains == ds[d := x] && x.pc == Sessions.Selecting && x.buf != []
    ensures Reaches(s, u) && SameMoney(t, u)
    ensures u.ses == t.ses.(drains := ds[d := x.(buf := x.buf[1..], pc := Sessions.Handling(x.buf[0]))])
  {
    Sessions.Taken(t.ses, ds, d, x);
    u := Ses(s, t, Sessions.Take(d));
  }

  /** A drain takes a turn_complete and gets through it. */
  lemma EndTurn(s: State, t: State, ds: Sessions.Drains, d: DrainId, x: Sessions.Drain) returns (u: State)
    requires Reaches(s, t) && t.ses.drains == ds[d := x] && t.drains == map[]
    requires x.pc == Sessions.Selecting && x.buf != [] && x.buf[0] == Sessions.DONE
    ensures Reaches(s, u) && SameMoney(t, u)
    ensures u.ses == t.ses.(status := AwaitingInput, drains := ds[d := x.(buf := x.buf[1..])])
  {
    Sessions.DoneIsTurnComplete();
    u := NextEvent(s, t, ds, d, x);
    var y := x.(buf := x.buf[1..], pc := Sessions.Handling(Sessions.DONE));
    Sessions.PassedOnAt(u.ses, ds, d, y);
    u := PassOn(s, u, d, !x.cancelled);
    Sessions.TurnEnded(u.ses, ds, d, y.(pc := Sessions.Handled(Sessions.DONE)));
    u := Ses(s, u, Sessions.Finish(d));
  }

  /** A session is stopped with a turn_complete still buffered. */
  lemma StoppedEarly(s: State, t: State, d: DrainId) returns (u: State)
    requires Reaches(s, t) && CanTransition(t.ses.status, Running)
    requires t.ses == Sessions.State(t.ses.status, None, map[], {})
    ensures Reaches(s, u) && SameMoney(t, u)
    ensures u.ses == Sessions.State(Cancelled, None,
                                    map[][d := Sessions.Drain([Sessions.DONE], true, true, Sessions.Selecting)], {})
  {
    var ds: Sessions.Drains := map[];
    var x := Sessions.Drain([Sessions.DONE], false, false, Sessions.Selecting);
    Sessions.Started(t.ses.status, ds, {}, d);
    u := Ses(s, t, Sessions.Start(d));
    Sessions.Emitted(u.ses, ds, d, Sessions.IDLE, Sessions.DONE);
    u := Ses(s, u, Sessions.Emit(d, Sessions.DONE));
    assert Sessions.IDLE.(buf := [] + [Sessions.DONE]) == x;
    Sessions.StoppedAt(ds, d, x);
    u := Ses(s, u, Sessions.Stop);
    Sessions.CleanedUpAt(Cancelled, ds, d, x.(closed := true, cancelled := true));
    u := Ses(s, u, Sessions.Cleanup);
    u := Ses(s, u, Sessions.CancelVictim(d));
  }

  /** A new session ends a turn and still has an event of its next one buffered. */
  lemma NewSession(s: State, t: State, d: DrainId, ev: AgentEvent) returns (u: State)
    requires Reaches(s, t) && CanTransition(t.ses.status, Running) && t.drains == map[]
    requires t.ses == Sessions.State(t.ses.status, None, t.ses.drains, {}) && d !in t.ses.drains
    ensures Reaches(s, u) && SameMoney(t, u)
    ensures u.ses == Sessions.State(AwaitingInput, Some(d),
                                    t.ses.drains[d := Sessions.Drain([ev], false, false, Sessions.Selecting)], {})
  {
    var ds := t.ses.drains;
    Sessions.Started(t.ses.status, ds, {}, d);
    u := Ses(s, t, Sessions.Start(d));
    Sessions.Emitted(u.ses, ds, d, Sessions.IDLE, Sessions.DONE);
    u := Ses(s, u, Sessions.Emit(d, Sessions.DONE));
    var x := Sessions.IDLE.(buf := [Sessions.DONE]);
    assert Sessions.IDLE.(buf := [] + [Sessions.DONE]) == x;
    Sessions.Emitted(u.ses, ds, d, x, ev);
    u := Ses(s, u, Sessions.Emit(d, ev));
    var y := x.(buf := [Sessions.DONE, ev]);
    assert x.(buf := [Sessions.DONE] + [ev]) == y;
    u := EndTurn(s, u, ds, d, y);
    assert y.buf[1..] == [ev];
  }

  /** The old drain leaves and deletes the new session from the map. */
  lemma GapOpens(s: State, t: State, d0: DrainId, d1: DrainId, x1: Sessions.Drain) returns (u: State)
    requires d0 != d1 && Reaches(s, t)
    requires t.ses == Sessions.State(AwaitingInput, Some(d1),
                                     map[][d0 := Sessions.Drain([], true, true, Sessions.Selecting)][d1 := x1], {})
    ensures Reaches(s, u) && SameMoney(t, u)
    ensures u.ses == Sessions.State(AwaitingInput, None,
                                    map[][d1 := x1][d0 := Sessions.Drain([], true, true, Sessions.Gone)], {d1})
  {
    var x0 := Sessions.Drain([], true, true, Sessions.Selecting);
    var ds: Sessions.Drains := map[][d1 := x1];
    assert t.ses.drains == ds[d0 := x0];
    Sessions.LeftAt(AwaitingInput, ds, d0, x0, d1);
    u := Ses(s, t, Sessions.Leave(d0));
  }

  /** Before that one is cancelled, a third Start gets through. */
  lemma StartInTheGap(s: State, t: State, d1: DrainId, d2: DrainId, x1: Sessions.Drain, ev: AgentEvent)
    returns (u: State)
    requires Reaches(s, t) && t.ses == Sessions.State(AwaitingInput, None, t.ses.drains, {d1})
    requires d1 in t.ses.drains && t.ses.drains[d1] == x1 && d2 !in t.ses.drains
    ensures Reaches(s, u) && SameMoney(t, u)
    ensures d1 in u.ses.drains && u.ses.drains[d1] == x1
    ensures d2 in u.ses.drains && u.ses.drains[d2] == Sessions.Drain([ev], false, false, Sessions.Selecting)
  {
    var ds := t.ses.drains;
    assert CanTransition(AwaitingInput, Running);
    Sessions.Started(AwaitingInput, ds, {d1}, d2);
    u := Ses(s, t, Sessions.Start(d2));
    Sessions.Emitted(u.ses, ds, d2, Sessions.IDLE, ev);
    u := Ses(s, u, Sessions.Emit(d2, ev));
    assert Sessions.IDLE.(buf := [] + [ev]) == Sessions.IDLE.(buf := [ev]);
  }

  /** A live drain has taken a cost event. */
  predicate Holds(t: State, d: DrainId, ev: AgentEvent) {
    HasEvent(t, d) && CanSucceed(t, d) && t.ses.drains[d].pc == Sessions.Handling(ev)
  }

  lemma BothTake(s: State, t: State, d: DrainId, e: DrainId, ev1: AgentEvent, ev2: AgentEvent) returns (u: State)
    requires d != e && Reaches(s, t) && d in t.ses.drains && e in t.ses.drains
    requires t.ses.drains[d] == Sessions.Drain([ev1], false, false, Sessions.Selecting)
    requires t.ses.drains[e] == Sessions.Drain([ev2], false, false, Sessions.Selecting)
    ensures Reaches(s, u) && SameMoney(t, u) && Holds(u, d, ev1) && Holds(u, e, ev2)
  {
    var ds := t.ses.drains;
    assert ds == ds[d := ds[d]];
    u := NextEvent(s, t, ds, d, ds[d]);
    var ds' := u.ses.drains;
    assert ds' == ds'[e := ds'[e]];
    u := NextEvent(s, u, ds', e, ds'[e]);
  }

  lemma PersistCost(s: State, t: State, d: DrainId, ev: AgentEvent) returns (u: State)
    requires Reaches(s, t) && Holds(t, d, ev) && d !in t.drains && CostOf(ev).Some?
    ensures Reaches(s, u) && u.drains == t.drains[d := ToRead(CostOf(ev).value, true)]
    ensures u.ses == t.ses && u.row == t.row && u.counted == t.counted && u.lost == t.lost && u.skew == t.skew
    ensures u.writes == t.writes && u.log == t.log + [ev]
  {
    u := Then(s, t, Persist(d, true));
  }

  lemma ReadTotals(s: State, t: State, d: DrainId, c: Cost) returns (u: State)
    requires Reaches(s, t) && HasEvent(t, d) && CanSucceed(t, d) && d in t.drains && t.drains[d] == ToRead(c, true)
    ensures Reaches(s, u) && u.drains == t.drains[d := ToWrite(c, true, TotalsOf(t.row), |t.writes|)]
    ensures u.ses == t.ses && u.row == t.row && u.counted == t.counted && u.lost == t.lost
  {
    u := Then(s, t, Read(d, true));
  }

  predicate IsToWrite(pc: Pc, c: Cost, seen: Totals) {
    pc.ToWrite? && pc.cost == c && pc.seen == seen
  }

  lemma WriteTotals(s: State, t: State, d: DrainId, c: Cost, seen: Totals) returns (u: State)
    requires Reaches(s, t) && HasEvent(t, d) && CanSucceed(t, d) && d in t.drains && IsToWrite(t.drains[d], c, seen)
    ensures Reaches(s, u) && u.drains == t.drains - {d} && u.ses == Through(t, d).ses
    ensures TotalsOf(u.row) == Held(Add(seen, c)) && u.counted == Add(t.counted, c)
    ensures u.lost == Plus(t.lost, Minus(TotalsOf(t.row), seen))
  {
    WrittenRow(t, d, 0);
    WriteEffect(t, d, 0);
    u := Then(s, t, Write(d, 0, true));
  }

  predicate ReadyToWrite(t: State, d: DrainId, c: Cost, seen: Totals) {
    HasEvent(t, d) && CanSucceed(t, d) && d in t.drains && IsToWrite(t.drains[d], c, seen)
  }

  lemma ReadOne(s: State, t: State, d: DrainId, ev: AgentEvent) returns (u: State)
    requires Reaches(s, t) && Holds(t, d, ev) && d !in t.drains && CostOf(ev).Some?
    ensures Reaches(s, u) && u.ses == t.ses && u.row == t.row && u.counted == t.counted && u.lost == t.lost
    ensures u.drains == t.drains[d := ToWrite(CostOf(ev).value, true, TotalsOf(t.row), |t.writes|)]
  {
    u := PersistCost(s, t, d, ev);
    u := ReadTotals(s, u, d, CostOf(ev).value);
    assert t.drains[d := ToRead(CostOf(ev).value, true)][d := u.drains[d]] == t.drains[d := u.drains[d]];
  }

  lemma BothRead(s: State, t: State, d: DrainId, e: DrainId, ev1: AgentEvent, ev2: AgentEvent) returns (u: State)
    requires d != e && Reaches(s, t) && t.drains == map[] && Holds(t, d, ev1) && Holds(t, e, ev2)
    requires CostOf(ev1).Some? && CostOf(ev2).Some?
    ensures Reaches(s, u) && u.row == t.row && u.counted == t.counted && u.lost == t.lost
    ensures ReadyToWrite(u, d, CostOf(ev1).value, TotalsOf(t.row))
            && ReadyToWrite(u, e, CostOf(ev2).value, TotalsOf(t.row))
    ensures u.drains.Keys == {d, e}
  {
    u := ReadOne(s, t, d, ev1);
    u := ReadOne(s, u, e, ev2);
  }

  lemma OtherStillReady(t: State, u: State, d: DrainId, e: DrainId, c: Cost, seen: Totals)
    requires d != e && HasEvent(t, d) && ReadyToWrite(t, e, c, seen)
    requires u.drains == t.drains - {d} && u.ses == Through(t, d).ses && t.drains.Keys == {d, e}
    ensures ReadyToWrite(u, e, c, seen) && u.drains.Keys == {e}
  {
    assert u.drains.Keys == t.drains.Keys - {d};
  }

  lemma FirstWrites(s: State, t: State, d: DrainId, e: DrainId, c1: Cost, c2: Cost, seen: Totals) returns (u: State)
    requires d != e && Reaches(s, t) && t.drains.Keys == {d, e} && t.lost == ZERO && t.counted == ZERO
    requires TotalsOf(t.row) == seen && ReadyToWrite(t, d, c1, seen) && ReadyToWrite(t, e, c2, seen)
    ensures Reaches(s, u) && u.drains.Keys == {e} && ReadyToWrite(u, e, c2, seen)
    ensures TotalsOf(u.row) == Held(Add(seen, c1)) && u.counted == Add(ZERO, c1) && u.lost == ZERO
  {
    u := WriteTotals(s, t, d, c1, seen);
    OtherStillReady(t, u, d, e, c2, seen);
    NothingMore(t.lost, seen);
  }

  lemma SecondWrites(s: State, t: State, e: DrainId, c2: Cost, seen: Totals) returns (u: State)
    requires Reaches(s, t) && t.drains.Keys == {e} && t.lost == ZERO && ReadyToWrite(t, e, c2, seen)
    ensures Reaches(s, u) && u.drains == map[]
    ensures TotalsOf(u.row) == Held(Add(seen, c2)) && u.counted == Add(t.counted, c2)
    ensures u.lost == Minus(TotalsOf(t.row), seen)
  {
    u := WriteTotals(s, t, e, c2, seen);
    PlusZero(Minus(TotalsOf(t.row), seen));
    assert u.drains.Keys == t.drains.Keys - {e};
  }

  lemma BothWrite(s: State, t: State, d: DrainId, e: DrainId, c1: Cost, c2: Cost, seen: Totals) returns (u: State)
    requires d != e && Reaches(s, t) && t.drains.Keys == {d, e} && t.lost == ZERO && t.counted == ZERO
    requires TotalsOf(t.row) == seen && ReadyToWrite(t, d, c1, seen) && ReadyToWrite(t, e, c2, seen)
    ensures Reaches(s, u) && u.drains == map[]
    ensures TotalsOf(u.row) == Held(Add(seen, c2)) && u.counted == Add(Add(ZERO, c1), c2)
    ensures u.lost == Minus(Held(Add(seen, c1)), seen)
  {
    u := FirstWrites(s, t, d, e, c1, c2, seen);
    u := SecondWrites(s, u, e, c2, seen);
  }

  /** A stopped session whose drain has ended a turn all the same. */
  lemma StoppedAndRevived(s: State, t: State, d: DrainId) returns (u: State)
    requires Reaches(s, t) && CanTransition(t.ses.status, Running) && t.drains == map[]
    requires t.ses == Sessions.State(t.ses.status, None, map[], {})
    ensures Reaches(s, u) && SameMoney(t, u)
    ensures u.ses == Sessions.State(AwaitingInput, None,
                                    map[][d := Sessions.Drain([], true, true, Sessions.Selecting)], {})
  {
    u := StoppedEarly(s, t, d);
    u := EndTurn(s, u, map[], d, Sessions.Drain([Sessions.DONE], true, true, Sessions.Selecting));
    assert [Sessions.DONE][1..] == [];
  }

  /** Two sessions of one workspace whose drains are both live, each with its event buffered. */
  lemma TwoLiveSessions(s: State, t: State, d0: DrainId, d1: DrainId, d2: DrainId, ev1: AgentEvent, ev2: AgentEvent)
    returns (u: State)
    requires Reaches(s, t) && CanTransition(t.ses.status, Running) && d0 != d1 && d0 != d2 && d1 != d2
    requires t.ses == Sessions.State(t.ses.status, None, map[], {}) && t.drains == map[]
    ensures Reaches(s, u) && SameMoney(t, u) && d1 in u.ses.drains && d2 in u.ses.drains
    ensures u.ses.drains[d1] == Sessions.Drain([ev1], false, false, Sessions.Selecting)
    ensures u.ses.drains[d2] == Sessions.Drain([ev2], false, false, Sessions.Selecting)
  {
    u := StoppedAndRevived(s, t, d0);
    u := NewSession(s, u, d1, ev1);
    var x1 := Sessions.Drain([ev1], false, false, Sessions.Selecting);
    u := GapOpens(s, u, d0, d1, x1);
    u := StartInTheGap(s, u, d1, d2, x1, ev2);
  }

  /** From every fresh start and for any two cost events, a run through the gap counts both
      and keeps only the second. */
  lemma GapLosesCost(s: State, d0: DrainId, d1: DrainId, d2: DrainId, ev1: AgentEvent, ev2: AgentEvent)
    returns (t: State)
    requires Initial(s) && CanTransition(s.ses.status, Running)
    requires d0 != d1 && d0 != d2 && d1 != d2 && CostOf(ev1).Some? && CostOf(ev2).Some?
    ensures Reaches(s, t) && t.drains == map[]
    ensures t.counted == Add(Add(ZERO, CostOf(ev1).value), CostOf(ev2).value)
    ensures TotalsOf(t.row) == Held(Add(TotalsOf(s.row), CostOf(ev2).value))
    ensures t.lost == Minus(Held(Add(TotalsOf(s.row), CostOf(ev1).value)), TotalsOf(s.row))
  {
    Stays(s);
    t := TwoLiveSessions(s, s, d0, d1, d2, ev1, ev2);
    t := BothTake(s, t, d1, d2, ev1, ev2);
    t := BothRead(s, t, d1, d2, ev1, ev2);
    t := BothWrite(s, t, d1, d2, CostOf(ev1).value, CostOf(ev2).value, TotalsOf(s.row));
  }

  // ---- the stop is real ----

  /** A session's drain has taken an event. */
  lemma EventTaken(s: State, d: DrainId, ev: AgentEvent) returns (t: State)
    requires Initial(s) && CanTransition(s.ses.status, Running)
    ensures Reaches(s, t) && SameMoney(s, t) && t.log == s.log
    ensures t.ses == Sessions.State(Running, Some(d), map[][d := Taken(ev)], {}) && Holds(t, d, ev)
  {
    var ds: Sessions.Drains := map[];
    Stays(s);
    Sessions.Started(s.ses.status, ds, {}, d);
    t := Ses(s, s, Sessions.Start(d));
    Sessions.Emitted(t.ses, ds, d, Sessions.IDLE, ev);
    t := Ses(s, t, Sessions.Emit(d, ev));
    var x := Sessions.Drain([ev], false, false, Sessions.Selecting);
    assert Sessions.IDLE.(buf := [] + [ev]) == x;
    Sessions.Taken(t.ses, ds, d, x);
    t := Ses(s, t, Sessions.Take(d));
    assert x.(buf := x.buf[1..], pc := Sessions.Handling(ev)) == Taken(ev);
  }

  function Taken(ev: AgentEvent): Sessions.Drain {
    Sessions.Drain([], false, false, Sessions.Handling(ev))
  }

  /** The session is stopped while its drain is at that event. */
  lemma StoppedThere(s: State, t: State, d: DrainId, ev: AgentEvent) returns (u: State)
    requires Reaches(s, t) && t.ses == Sessions.State(Running, Some(d), map[][d := Taken(ev)], {})
    ensures Reaches(s, u) && SameMoney(t, u) && u.log == t.log && HasEvent(u, d)
    ensures u.ses.status == Status.Cancelled && u.ses.session == None
  {
    var ds: Sessions.Drains := map[];
    Sessions.StoppedAt(ds, d, Taken(ev));
    u := Ses(s, t, Sessions.Stop);
    Sessions.CleanedUpAt(Status.Cancelled, ds, d, Taken(ev).(closed := true, cancelled := true));
    u := Ses(s, u, Sessions.Cleanup);
    u := Ses(s, u, Sessions.CancelVictim(d));
  }

  /** Its read then fails. */
  lemma ReadFails(s: State, t: State, d: DrainId, c: Cost) returns (u: State)
    requires Reaches(s, t) && HasEvent(t, d) && t.drains == map[][d := ToRead(c, true)]
    ensures Reaches(s, u) && u.drains == map[] && u.row == t.row && u.log == t.log
    ensures u.counted == t.counted && u.lost == t.lost && u.skew == Plus(t.skew, AsTotals(c))
    ensures u.ses.status == t.ses.status
  {
    u := Then(s, t, Read(d, false));
    assert t.drains - {d} == map[];
  }

  lemma CutOff(s: State, t: State, d: DrainId, ev: AgentEvent, c: Cost) returns (u: State)
    requires Reaches(s, t) && t.ses == Sessions.State(Running, Some(d), map[][d := Taken(ev)], {}) && Holds(t, d, ev)
    requires t.drains == map[] && CostOf(ev) == Some(c)
    ensures Reaches(s, u) && u.drains == map[] && u.log == t.log + [ev] && u.ses.status == Status.Cancelled
    ensures TotalsOf(u.row) == TotalsOf(t.row) && u.counted == t.counted && u.lost == t.lost
    ensures u.skew == Plus(t.skew, AsTotals(c))
  {
    u := PersistCost(s, t, d, ev);
    u := StoppedThere(s, u, d, ev);
    u := ReadFails(s, u, d, c);
  }

  /** From every fresh start and for any cost event: a Stop between the event's insert and its
      cost's read leaves the event in the log and the totals as they were. */
  lemma StopCutsCost(s: State, d: DrainId, ev: AgentEvent) returns (t: State)
    requires Initial(s) && CanTransition(s.ses.status, Running) && CostOf(ev).Some?
    ensures Reaches(s, t) && t.drains == map[] && t.log == [ev] && t.ses.status == Status.Cancelled
    ensures TotalsOf(t.row) == TotalsOf(s.row) && t.counted == ZERO && t.lost == ZERO
    ensures t.skew == AsTotals(CostOf(ev).value)
  {
    t := EventTaken(s, d, ev);
    t := CutOff(s, t, d, ev, CostOf(ev).value);
    PlusZero(AsTotals(CostOf(ev).value));
  }

  /** So the log explains the totals only if the cost adds nothing to them. */
  lemma StopLeavesUnexplained(s: State, d: DrainId, ev: AgentEvent) returns (t: State)
    requires Initial(s) && CanTransition(s.ses.status, Running) && CostOf(ev).Some?
    ensures Reaches(s, t) && t.drains == map[] && t.log == [ev]
    ensures TotalsOf(t.row) == Held(Plus(TotalsOf(s.row), LogTotals(t.log)))
            <==> Held(AsTotals(CostOf(ev).value)) == ZERO
  {
    t := StopCutsCost(s, d, ev);
    var acts :| IsRun(s, acts) && After(s, acts) == t;
    LogExplainsTotals(s, acts);
    PlusZero(AsTotals(CostOf(ev).value));
  }
}
