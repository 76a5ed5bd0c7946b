/** Token and cost totals: applyCost's read and write as separate steps, interleaved with
    every other update of the same row (internal/agent/manager.go, events.go). */
module CostLedger {
  import opened Wrappers
  import opened WorkspaceRow
  import opened Events
  import Sessions

  datatype Totals = Totals(tokensIn: int, tokensOut: int, costUsd: real)

  function TotalsOf(ws: Workspace): Totals {
    Totals(ws.tokensIn, ws.tokensOut, ws.costUsd)
  }

  function Add(t: Totals, c: Cost): Totals {
    Totals(t.tokensIn + c.tokensIn, t.tokensOut + c.tokensOut, t.costUsd + c.costUsd)
  }

  function Plus(a: Totals, b: Totals): Totals {
    Totals(a.tokensIn + b.tokensIn, a.tokensOut + b.tokensOut, a.costUsd + b.costUsd)
  }

  function Minus(a: Totals, b: Totals): Totals {
    Totals(a.tokensIn - b.tokensIn, a.tokensOut - b.tokensOut, a.costUsd - b.costUsd)
  }

  /** A total as the int columns hold it. */
  function Held(t: Totals): Totals {
    Totals(Wrap64(t.tokensIn), Wrap64(t.tokensOut), t.costUsd)
  }

  const ZERO := Totals(0, 0, 0.0)

  /** The fold of CostOf over a log. */
  function LogTotals(log: seq<AgentEvent>): Totals {
    if log == [] then ZERO
    else
      var rest, last := LogTotals(log[..|log| - 1]), log[|log| - 1];
      if CostOf(last).Some? then Add(rest, CostOf(last).value) else rest
  }

  type DrainId = Sessions.DrainId

  /** A drain between persisting a cost event and applying it: whether the event is in the
      log and, once it has read, what it saw and after how many writes. */
  datatype Pc =
    | ToRead(cost: Cost, logged: bool)
    | ToWrite(cost: Cost, logged: bool, seen: Totals, base: nat)

  /** A write that went through: its cost, and how many writes the row it had read was the
      result of. */
  datatype Link = Link(base: nat, cost: Cost)

  /** The last four fields are records that no step reads. `counted` sums the costs whose
      write went through, `writes` lists them; `lost` sums, over those writes, what the row
      held beyond what the writer had read; `skew` sums the costs of events that were logged
      but whose call then failed, less those counted without being in the log. */
  datatype State = State(
    row: Workspace,
    log: seq<AgentEvent>,
    drains: map<DrainId, Pc>,
    ses: Sessions.State,
    counted: Totals,
    writes: seq<Link>,
    lost: Totals,
    skew: Totals)

  datatype Action =
    | Persist(d: DrainId, ok: bool)
    | Read(d: DrainId, ok: bool)
    | Write(d: DrainId, now: int, ok: bool)
    | OtherUpdate(p: Patch, now: int)
    | Session(a: Sessions.Action)

  /** The patches of every other caller: no total among their columns. */
  predicate LeavesTotals(p: Patch) {
    p.tokensIn.None? && p.tokensOut.None? && p.costUsd.None?
  }

  /** Database calls of a drain run under its session's context: cancelled, they fail. */
  predicate CanSucceed(s: State, d: DrainId) {
    d in s.ses.drains && !s.ses.drains[d].cancelled
  }

  predicate HasEvent(s: State, d: DrainId) {
    d in s.ses.drains && s.ses.drains[d].pc.Handling?
  }

  predicate Enabled(s: State, a: Action) {
    match a
    case Persist(d, ok) => HasEvent(s, d) && d !in s.drains && (ok ==> CanSucceed(s, d))
    case Read(d, ok) => HasEvent(s, d) && d in s.drains && s.drains[d].ToRead? && (ok ==> CanSucceed(s, d))
    case Write(d, _, ok) => HasEvent(s, d) && d in s.drains && s.drains[d].ToWrite? && (ok ==> CanSucceed(s, d))
    case OtherUpdate(p, _) => LeavesTotals(p)
    case Session(a) => Sessions.Enabled(s.ses, a)
  }

  /** The patch applyCost writes, from what it read. */
  function TotalsPatch(seen: Totals, c: Cost): Patch {
    var sum := Held(Add(seen, c));
    NO_CHANGE.(tokensIn := Some(sum.tokensIn), tokensOut := Some(sum.tokensOut), costUsd := Some(sum.costUsd))
  }

  /** The drain is through with its event. */
  function Through(s: State, d: DrainId): State
    requires HasEvent(s, d)
  {
    s.(drains := s.drains - {d}, ses := Sessions.PassedOn(s.ses, d))
  }

  function AsTotals(c: Cost): Totals {
    Totals(c.tokensIn, c.tokensOut, c.costUsd)
  }

  /** The drain's read or write failed: its cost is given up. */
  function Missed(s: State, d: DrainId): State
    requires HasEvent(s, d) && d in s.drains
  {
    Through(s, d).(skew := if s.drains[d].logged then Plus(s.skew, AsTotals(s.drains[d].cost)) else s.skew)
  }

  function Step(s: State, a: Action): State
    requires Enabled(s, a)
  {
    match a
    case Persist(d, ok) =>
      var ev := s.ses.drains[d].pc.ev;
      var logged := if ok then s.(log := s.log + [ev]) else s;
      if CostOf(ev).Some? then logged.(drains := s.drains[d := ToRead(CostOf(ev).value, ok)]) else Through(logged, d)
    case Read(d, ok) =>
      var pc := s.drains[d];
      if ok then s.(drains := s.drains[d := ToWrite(pc.cost, pc.logged, TotalsOf(s.row), |s.writes|)])
      else Missed(s, d)
    case Write(d, now, ok) =>
      var pc := s.drains[d];
      if ok then
        Through(s, d)
        .(row := Applied(TotalsPatch(pc.seen, pc.cost), s.row, now),
          counted := Add(s.counted, pc.cost),
          writes := s.writes + [Link(pc.base, pc.cost)],
          lost := Plus(s.lost, Minus(TotalsOf(s.row), pc.seen)),
          skew := if pc.logged then s.skew else Minus(s.skew, AsTotals(pc.cost)))
      else Missed(s, d)
    case OtherUpdate(p, now) => s.(row := Applied(p, s.row, now))
    case Session(a) => var ses := Sessions.Step(s.ses, a); s.(ses := ses, row := s.row.(status := ses.status))
  }

  ghost predicate IsRun(s: State, acts: seq<Action>)
    decreases |acts|
  {
    acts == [] || (Enabled(s, acts[0]) && IsRun(Step(s, acts[0]), acts[1..]))
  }

  ghost function After(s: State, acts: seq<Action>): State
    requires IsRun(s, acts)
    decreases |acts|
  {
    if acts == [] then s else After(Step(s, acts[0]), acts[1..])
  }

  /** Before the workspace's first session of this server. */
  ghost predicate Initial(s: State) {
    && s.log == [] && s.drains == map[] && s.counted == ZERO && s.writes == []
    && s.lost == ZERO && s.skew == ZERO
    && TotalsOf(s.row) == Held(TotalsOf(s.row))
    && s.ses.session == None && s.ses.drains == map[] && s.ses.victims == {}
  }

  // ---- the balance of every run ----

  /** What the row holds and what was lost on the way make up the start and what was counted. */
  ghost predicate Balanced(s: State, start: Totals) {
    TotalsOf(s.row) == Held(TotalsOf(s.row)) && Held(Plus(TotalsOf(s.row), s.lost)) == Held(Plus(start, s.counted))
  }

  lemma WrapAdds(a: int, b: int)
    ensures Wrap64(Wrap64(a) + b) == Wrap64(a + b)
  {
  }

  lemma WrapShifts(a: int, b: int, c: int)
    requires Wrap64(a) == Wrap64(b)
    ensures Wrap64(a + c) == Wrap64(b + c)
  {
    WrapAdds(a, c);
    WrapAdds(b, c);
  }

  /** One total over one write: `row` is what the column held, `seen` what the writer read. */
  lemma WriteBalances(row: int, lost: int, counted: int, seen: int, c: int)
    requires Wrap64(row + lost) == Wrap64(counted)
    ensures Wrap64(Wrap64(seen + c) + (lost + (row - seen))) == Wrap64(counted + c)
  {
    WrapAdds(seen + c, lost + (row - seen));
    WrapShifts(row + lost, counted, c);
  }

  lemma WrapTwice(a: int)
    ensures Wrap64(Wrap64(a)) == Wrap64(a)
  {
  }

  lemma StepBalances(s: State, a: Action, start: Totals)
    requires Balanced(s, start) && Enabled(s, a)
    ensures Balanced(Step(s, a), start)
  {
    if a.Write? && a.ok {
      var c, seen := s.drains[a.d].cost, s.drains[a.d].seen;
      WriteBalances(s.row.tokensIn, s.lost.tokensIn, start.tokensIn + s.counted.tokensIn, seen.tokensIn, c.tokensIn);
      WriteBalances(s.row.tokensOut, s.lost.tokensOut, start.tokensOut + s.counted.tokensOut, seen.tokensOut,
                    c.tokensOut);
      WrapTwice(seen.tokensIn + c.tokensIn);
      WrapTwice(seen.tokensOut + c.tokensOut);
    }
  }

  lemma {:induction false} RunBalances(s: State, acts: seq<Action>, start: Totals)
    requires Balanced(s, start) && IsRun(s, acts)
    ensures Balanced(After(s, acts), start)
    decreases |acts|
  {
    if acts != [] {
      StepBalances(s, acts[0], start);
      RunBalances(Step(s, acts[0]), acts[1..], start);
    }
  }

  lemma InitiallyBalanced(s: State)
    requires Initial(s)
    ensures Balanced(s, TotalsOf(s.row))
  {
    assert Plus(TotalsOf(s.row), ZERO) == TotalsOf(s.row);
  }

  lemma WrapCancels(row: int, lost: int, counted: int)
    requires Wrap64(row) == row && Wrap64(row + lost) == Wrap64(counted)
    ensures row == Wrap64(counted) <==> Wrap64(lost) == 0
  {
  }

  /** In every interleaving, whatever else is written to the row: the totals are the initial
      ones plus every cost that was written exactly when nothing was lost. */
  lemma TotalsAreConservedExactly(s: State, acts: seq<Action>)
    requires Initial(s) && IsRun(s, acts)
    ensures var t := After(s, acts);
            && Held(Plus(TotalsOf(t.row), t.lost)) == Held(Plus(TotalsOf(s.row), t.counted))
            && (TotalsOf(t.row) == Held(Plus(TotalsOf(s.row), t.counted)) <==> Held(t.lost) == ZERO)
  {
    InitiallyBalanced(s);
    RunBalances(s, acts, TotalsOf(s.row));
    var t, sum := After(s, acts), Plus(TotalsOf(s.row), After(s, acts).counted);
    WrapCancels(t.row.tokensIn, t.lost.tokensIn, sum.tokensIn);
    WrapCancels(t.row.tokensOut, t.lost.tokensOut, sum.tokensOut);
  }

  // ---- when nothing is lost ----

  /** No Start falls between the delete and the cancellation of one cleanupSession. */
  ghost predicate IsGapFreeRun(s: State, acts: seq<Action>)
    decreases |acts|
  {
    acts == [] ||
    (&& Enabled(s, acts[0]) && (acts[0].Session? ==> Sessions.OutsideGap(s.ses, acts[0].a))
     && IsGapFreeRun(Step(s, acts[0]), acts[1..]))
  }

  /** A drain that has read and can still write has read the row as it is. */
  ghost predicate Fresh(s: State) {
    forall d :: d in s.drains && s.drains[d].ToWrite? && CanSucceed(s, d) ==> s.drains[d].seen == TotalsOf(s.row)
  }

  ghost predicate NothingLost(s: State) {
    && Sessions.GapFree(s.ses) && Fresh(s) && s.lost == ZERO
    && (forall d :: d in s.drains ==> HasEvent(s, d))
  }

  /** Passing an event on changes nobody's context, and nobody else's event. */
  lemma ThroughKeeps(s: State, d: DrainId)
    requires HasEvent(s, d)
    ensures forall e :: CanSucceed(Through(s, d), e) <==> CanSucceed(s, e)
    ensures forall e :: e != d ==> (HasEvent(Through(s, d), e) <==> HasEvent(s, e))
    ensures Sessions.GapFree(s.ses) ==> Sessions.GapFree(Through(s, d).ses)
  {
    Sessions.PassedOnKeeps(s.ses, d);
  }

  lemma OnlyWriter(s: State, d: DrainId, e: DrainId)
    requires NothingLost(s) && CanSucceed(s, d) && CanSucceed(s, e) && HasEvent(s, d) && HasEvent(s, e)
    ensures d == e
  {
    Sessions.GapFreeIsOneLive(s.ses);
    assert Sessions.Live(s.ses, d) && Sessions.Live(s.ses, e);
  }

  /** After the only writer's write, whatever the row holds now, nobody else's read matters. */
  lemma NobodyElse(s: State, s': State, d: DrainId)
    requires NothingLost(s) && CanSucceed(s, d) && HasEvent(s, d)
    requires s'.drains == s.drains - {d} && s'.ses == Through(s, d).ses && s'.lost == ZERO
    ensures NothingLost(s')
  {
    ThroughKeeps(s, d);
    forall e | e in s'.drains ensures HasEvent(s', e) && !CanSucceed(s', e) {
      assert HasEvent(s, e);
      if CanSucceed(s, e) {
        OnlyWriter(s, d, e);
      }
    }
  }

  lemma WriteEffect(s: State, d: DrainId, now: int)
    requires Enabled(s, Write(d, now, true))
    ensures var s' := Step(s, Write(d, now, true));
            && s'.drains == s.drains - {d} && s'.ses == Through(s, d).ses
            && s'.lost == Plus(s.lost, Minus(TotalsOf(s.row), s.drains[d].seen))
            && s'.counted == Add(s.counted, s.drains[d].cost) && s'.log == s.log
            && s'.writes == s.writes + [Link(s.drains[d].base, s.drains[d].cost)]
  {
  }

  lemma WrittenRow(s: State, d: DrainId, now: int)
    requires Enabled(s, Write(d, now, true))
    ensures TotalsOf(Step(s, Write(d, now, true)).row) == Held(Add(s.drains[d].seen, s.drains[d].cost))
  {
  }

  /** What a read hands to its write, and what the write then stores: each of the three columns
      by itself. */
  lemma ColumnsApart(s: State, d: DrainId, now: int)
    requires d in s.drains
    ensures Enabled(s, Read(d, true)) ==>
              var pc := Step(s, Read(d, true)).drains[d];
              && pc.ToWrite? && pc.cost == s.drains[d].cost && pc.seen.tokensIn == s.row.tokensIn
              && pc.seen.tokensOut == s.row.tokensOut && pc.seen.costUsd == s.row.costUsd
    ensures Enabled(s, Write(d, now, true)) ==>
              var row, pc := Step(s, Write(d, now, true)).row, s.drains[d];
              && row.tokensIn == Wrap64(pc.seen.tokensIn + pc.cost.tokensIn)
              && row.tokensOut == Wrap64(pc.seen.tokensOut + pc.cost.tokensOut)
              && row.costUsd == pc.seen.costUsd + pc.cost.costUsd && row.status == s.row.status
  {
  }

  lemma NothingMore(lost: Totals, t: Totals)
    requires lost == ZERO
    ensures Plus(lost, Minus(t, t)) == ZERO
  {
  }

  lemma WriteLosesNothing(s: State, d: DrainId, now: int)
    requires NothingLost(s) && Enabled(s, Write(d, now, true))
    ensures NothingLost(Step(s, Write(d, now, true)))
  {
    WriteEffect(s, d, now);
    ReadIsFresh(s, d);
    NothingMore(s.lost, TotalsOf(s.row));
    NobodyElse(s, Step(s, Write(d, now, true)), d);
  }

  lemma ReadIsFresh(s: State, d: DrainId)
    requires Fresh(s) && d in s.drains && s.drains[d].ToWrite? && CanSucceed(s, d)
    ensures s.drains[d].seen == TotalsOf(s.row)
  {
  }

  lemma FailLosesNothing(s: State, d: DrainId)
    requires NothingLost(s) && HasEvent(s, d) && d in s.drains
    ensures NothingLost(Missed(s, d))
  {
    ThroughKeeps(s, d);
  }

  lemma PersistLosesNothing(s: State, d: DrainId, ok: bool)
    requires NothingLost(s) && Enabled(s, Persist(d, ok))
    ensures NothingLost(Step(s, Persist(d, ok)))
  {
    ThroughKeeps(s, d);
  }

  lemma ReadLosesNothing(s: State, d: DrainId)
    requires NothingLost(s) && Enabled(s, Read(d, true))
    ensures NothingLost(Step(s, Read(d, true)))
  {
  }

  lemma UpdateLosesNothing(s: State, p: Patch, now: int)
    requires NothingLost(s) && LeavesTotals(p)
    ensures NothingLost(Step(s, OtherUpdate(p, now)))
  {
  }

  lemma SessionLosesNothing(s: State, a: Sessions.Action)
    requires NothingLost(s) && Sessions.Enabled(s.ses, a) && Sessions.OutsideGap(s.ses, a)
    ensures NothingLost(Step(s, Session(a)))
  {
    Sessions.OutsideGapKeeps(s.ses, a);
    var s' := Step(s, Session(a));
    forall d | d in s'.drains ensures HasEvent(s', d) && (CanSucceed(s', d) ==> CanSucceed(s, d)) {
      assert HasEvent(s, d);
    }
  }

  lemma StepLosesNothing(s: State, a: Action)
    requires NothingLost(s) && Enabled(s, a) && (a.Session? ==> Sessions.OutsideGap(s.ses, a.a))
    ensures NothingLost(Step(s, a))
  {
    match a
    case Session(b) => SessionLosesNothing(s, b);
    case Write(d, now, ok) => if ok { WriteLosesNothing(s, d, now); } else { FailLosesNothing(s, d); }
    case Persist(d, ok) => PersistLosesNothing(s, d, ok);
    case Read(d, ok) => if ok { ReadLosesNothing(s, d); } else { FailLosesNothing(s, d); }
    case OtherUpdate(p, now) => UpdateLosesNothing(s, p, now);
  }

  lemma {:induction false} GapFreeRunLosesNothing(s: State, acts: seq<Action>)
    requires NothingLost(s) && IsGapFreeRun(s, acts)
    ensures IsRun(s, acts) && NothingLost(After(s, acts))
    decreases |acts|
  {
    if acts != [] {
      StepLosesNothing(s, acts[0]);
      GapFreeRunLosesNothing(Step(s, acts[0]), acts[1..]);
    }
  }

  /** Unless a Start falls into such a gap, no cost is lost, however sessions start, stop and
      outlive each other, and whatever fails. */
  lemma TotalsAreConserved(s: State, acts: seq<Action>)
    requires Initial(s) && IsGapFreeRun(s, acts)
    ensures IsRun(s, acts)
    ensures var t := After(s, acts);
            t.lost == ZERO && TotalsOf(t.row) == Held(Plus(TotalsOf(s.row), t.counted))
  {
    GapFreeRunLosesNothing(s, acts);
    TotalsAreConservedExactly(s, acts);
  }

  /** No drain reads while another has read and not yet written. */
  ghost predicate IsSerialRun(s: State, acts: seq<Action>)
    decreases |acts|
  {
    acts == [] || (Enabled(s, acts[0]) && (acts[0].Read? ==> NobodyWriting(s))
                   && IsSerialRun(Step(s, acts[0]), acts[1..]))
  }

  ghost predicate NobodyWriting(s: State) {
    forall d :: d in s.drains ==> s.drains[d].ToRead?
  }

  ghost predicate OneWriting(s: State) {
    && s.lost == ZERO
    && (forall d :: d in s.drains && s.drains[d].ToWrite? ==> s.drains[d].seen == TotalsOf(s.row))
    && (forall d, e :: d in s.drains && e in s.drains && s.drains[d].ToWrite? && s.drains[e].ToWrite? ==> d == e)
  }

  lemma OnlyOneWas(s: State, s': State, d: DrainId)
    requires OneWriting(s) && d in s.drains && s.drains[d].ToWrite? && s'.drains == s.drains - {d} && s'.lost == ZERO
    ensures OneWriting(s')
  {
    assert forall e :: e in s'.drains ==> s'.drains[e].ToRead?;
  }

  lemma SerialStep(s: State, a: Action)
    requires OneWriting(s) && Enabled(s, a) && (a.Read? ==> NobodyWriting(s))
    ensures OneWriting(Step(s, a))
  {
    if a.Write? {
      if a.ok {
        WriteEffect(s, a.d, a.now);
        NothingMore(s.lost, TotalsOf(s.row));
      }
      OnlyOneWas(s, Step(s, a), a.d);
    } else {
      NoWriteStep(s, a);
    }
  }

  lemma NoWriteStep(s: State, a: Action)
    requires OneWriting(s) && Enabled(s, a) && (a.Read? ==> NobodyWriting(s)) && !a.Write?
    ensures OneWriting(Step(s, a))
  {
  }

  lemma {:induction false} SerialRunKeeps(s: State, acts: seq<Action>)
    requires OneWriting(s) && IsSerialRun(s, acts)
    ensures IsRun(s, acts) && OneWriting(After(s, acts))
    decreases |acts|
  {
    if acts != [] {
      SerialStep(s, acts[0]);
      SerialRunKeeps(Step(s, acts[0]), acts[1..]);
    }
  }

  /** Nor is any lost, gap or no gap, when no two drains overlap between read and write. */
  lemma SerialRunsLoseNothing(s: State, acts: seq<Action>)
    requires Initial(s) && IsSerialRun(s, acts)
    ensures IsRun(s, acts)
    ensures var t := After(s, acts);
            t.lost == ZERO && TotalsOf(t.row) == Held(Plus(TotalsOf(s.row), t.counted))
  {
    SerialRunKeeps(s, acts);
    TotalsAreConservedExactly(s, acts);
  }

  // ---- the log and the totals ----

  /** The costs in hand of drains below n whose events are in the log. */
  function InHand(drains: map<DrainId, Pc>, n: nat): Totals {
    if n == 0 then ZERO
    else if n - 1 in drains && drains[n - 1].logged then Add(InHand(drains, n - 1), drains[n - 1].cost)
    else InHand(drains, n - 1)
  }

  predicate Bounds(drains: map<DrainId, Pc>, n: nat) {
    forall d :: d in drains ==> d < n
  }

  function Together(a: Totals, b: Totals, c: Totals): Totals {
    Plus(Plus(a, b), c)
  }

  predicate LogOkAt(s: State, n: nat) {
    Bounds(s.drains, n) ==> LogTotals(s.log) == Together(s.counted, s.skew, InHand(s.drains, n))
  }

  /** What is in the log has been counted, is in hand, or makes the skew. */
  ghost predicate LogOk(s: State) {
    forall n: nat :: LogOkAt(s, n)
  }

  predicate SameHand(m: map<DrainId, Pc>, m': map<DrainId, Pc>, d: DrainId) {
    (d in m <==> d in m') && (d in m ==> m[d].logged == m'[d].logged && m[d].cost == m'[d].cost)
  }

  lemma {:induction false} InHandSame(m: map<DrainId, Pc>, m': map<DrainId, Pc>, n: nat)
    requires forall d: nat :: d < n ==> SameHand(m, m', d)
    ensures InHand(m, n) == InHand(m', n)
  {
    if n > 0 {
      InHandSame(m, m', n - 1);
      assert SameHand(m, m', n - 1);
    }
  }

  function AndThen(t: Totals, pc: Pc): Totals {
    if pc.logged then Add(t, pc.cost) else t
  }

  /** One drain more in hand. */
  lemma {:induction false} InHandMore(m: map<DrainId, Pc>, d: DrainId, pc: Pc, n: nat)
    requires d !in m && d < n
    ensures InHand(m[d := pc], n) == AndThen(InHand(m, n), pc)
  {
    if d == n - 1 {
      var m' := m[d := pc];
      assert forall e: nat :: e < d ==> SameHand(m, m', e);
      InHandSame(m, m', d);
    } else {
      InHandMore(m, d, pc, n - 1);
    }
  }

  lemma InHandLess(m: map<DrainId, Pc>, d: DrainId, n: nat)
    requires d in m && d < n
    ensures InHand(m, n) == AndThen(InHand(m - {d}, n), m[d])
  {
    InHandMore(m - {d}, d, m[d], n);
    assert (m - {d})[d := m[d]] == m;
  }

  /** Any bound will do. */
  lemma {:induction false} InHandBeyond(m: map<DrainId, Pc>, n: nat, k: nat)
    requires Bounds(m, n) && n <= k
    ensures InHand(m, k) == InHand(m, n)
  {
    if n < k {
      InHandBeyond(m, n, k - 1);
    }
  }

  lemma {:induction false} InHandNothing(m: map<DrainId, Pc>, n: nat)
    requires m == map[]
    ensures InHand(m, n) == ZERO
  {
    if n > 0 {
      InHandNothing(m, n - 1);
    }
  }

  lemma LogMore(log: seq<AgentEvent>, ev: AgentEvent)
    ensures LogTotals(log + [ev]) == if CostOf(ev).Some? then Add(LogTotals(log), CostOf(ev).value) else LogTotals(log)
  {
    assert (log + [ev])[..|log|] == log;
  }

  /** A drain's cost has been counted or given up. */
  predicate Settled(counted: Totals, skew: Totals, pc: Pc, counted': Totals, skew': Totals) {
    || (counted' == Add(counted, pc.cost) && skew' == if pc.logged then skew else Minus(skew, AsTotals(pc.cost)))
    || (counted' == counted && skew' == if pc.logged then Plus(skew, AsTotals(pc.cost)) else skew)
  }

  lemma SettledSum(counted: Totals, skew: Totals, pc: Pc, counted': Totals, skew': Totals, hand: Totals)
    requires Settled(counted, skew, pc, counted', skew')
    ensures Together(counted', skew', hand) == Together(counted, skew, AndThen(hand, pc))
  {
  }

  lemma OneMoreInHand(counted: Totals, skew: Totals, hand: Totals, c: Cost)
    ensures Together(counted, skew, Add(hand, c)) == Add(Together(counted, skew, hand), c)
  {
  }

  lemma FewerBounded(m: map<DrainId, Pc>, m': map<DrainId, Pc>, n: nat)
    requires Bounds(m', n) && m.Keys <= m'.Keys
    ensures Bounds(m, n)
  {
    forall d | d in m ensures d < n {
      assert d in m.Keys;
    }
  }

  lemma PersistAt(s: State, s': State, d: DrainId, ev: AgentEvent, pc: Pc, n: nat)
    requires LogOk(s) && d !in s.drains && CostOf(ev) == Some(pc.cost)
    requires s'.drains == s.drains[d := pc] && s'.counted == s.counted && s'.skew == s.skew
    requires s'.log == if pc.logged then s.log + [ev] else s.log
    ensures LogOkAt(s', n)
  {
    if Bounds(s'.drains, n) {
      assert d in s'.drains;
      FewerBounded(s.drains, s'.drains, n);
      assert LogOkAt(s, n);
      LogMore(s.log, ev);
      InHandMore(s.drains, d, pc, n);
      OneMoreInHand(s.counted, s.skew, InHand(s.drains, n), pc.cost);
    }
  }

  lemma PersistEffect(s: State, d: DrainId, ok: bool)
    requires Enabled(s, Persist(d, ok))
    ensures var s', ev := Step(s, Persist(d, ok)), s.ses.drains[d].pc.ev;
            && s'.log == (if ok then s.log + [ev] else s.log) && s'.counted == s.counted && s'.skew == s.skew
            && s'.drains == match CostOf(ev) { case Some(c) => s.drains[d := ToRead(c, ok)] case None => s.drains }
  {
    assert s.drains - {d} == s.drains;
  }

  lemma PersistLogged(s: State, d: DrainId, ok: bool)
    requires LogOk(s) && Enabled(s, Persist(d, ok))
    ensures LogOk(Step(s, Persist(d, ok)))
  {
    var s', ev := Step(s, Persist(d, ok)), s.ses.drains[d].pc.ev;
    PersistEffect(s, d, ok);
    LogMore(s.log, ev);
    forall n: nat ensures LogOkAt(s', n) {
      assert LogOkAt(s, n);
      if CostOf(ev).Some? {
        PersistAt(s, s', d, ev, ToRead(CostOf(ev).value, ok), n);
      }
    }
  }

  lemma SettledAt(s: State, s': State, d: DrainId, n: nat)
    requires LogOk(s) && d in s.drains && s'.drains == s.drains - {d} && s'.log == s.log
    requires Settled(s.counted, s.skew, s.drains[d], s'.counted, s'.skew)
    ensures LogOkAt(s', n)
  {
    if Bounds(s'.drains, n) {
      var k := if d < n then n else d + 1;
      assert Bounds(s.drains, k) by { assert forall e :: e in s.drains && e != d ==> e in s'.drains; }
      assert LogOkAt(s, k);
      InHandBeyond(s'.drains, n, k);
      InHandLess(s.drains, d, k);
      SettledSum(s.counted, s.skew, s.drains[d], s'.counted, s'.skew, InHand(s'.drains, n));
    }
  }

  /** One drain's cost leaves the hand. */
  lemma SettledLogged(s: State, s': State, d: DrainId)
    requires LogOk(s) && d in s.drains && s'.drains == s.drains - {d} && s'.log == s.log
    requires Settled(s.counted, s.skew, s.drains[d], s'.counted, s'.skew)
    ensures LogOk(s')
  {
    forall n: nat { SettledAt(s, s', d, n); }
  }

  lemma MissSettles(s: State, d: DrainId)
    requires HasEvent(s, d) && d in s.drains
    ensures var s' := Missed(s, d);
            && s'.drains == s.drains - {d} && s'.log == s.log
            && Settled(s.counted, s.skew, s.drains[d], s'.counted, s'.skew)
  {
  }

  lemma WriteSettles(s: State, d: DrainId, now: int)
    requires Enabled(s, Write(d, now, true))
    ensures var s', pc := Step(s, Write(d, now, true)), s.drains[d];
            && s'.drains == s.drains - {d} && s'.log == s.log
            && s'.counted == Add(s.counted, pc.cost)
            && s'.skew == if pc.logged then s.skew else Minus(s.skew, AsTotals(pc.cost))
  {
  }

  lemma MissLogged(s: State, d: DrainId)
    requires LogOk(s) && HasEvent(s, d) && d in s.drains
    ensures LogOk(Missed(s, d))
  {
    MissSettles(s, d);
    SettledLogged(s, Missed(s, d), d);
  }

  lemma WriteLogged(s: State, d: DrainId, now: int)
    requires LogOk(s) && Enabled(s, Write(d, now, true))
    ensures LogOk(Step(s, Write(d, now, true)))
  {
    WriteSettles(s, d, now);
    SettledLogged(s, Step(s, Write(d, now, true)), d);
  }

  lemma SameLogged(s: State, s': State)
    requires LogOk(s) && s'.drains.Keys == s.drains.Keys
    requires forall d: nat :: SameHand(s.drains, s'.drains, d)
    requires s'.log == s.log && s'.counted == s.counted && s'.skew == s.skew
    ensures LogOk(s')
  {
    forall n: nat ensures LogOkAt(s', n) {
      assert LogOkAt(s, n);
      InHandSame(s.drains, s'.drains, n);
      if Bounds(s'.drains, n) {
        FewerBounded(s.drains, s'.drains, n);
      }
    }
  }

  lemma StepLogged(s: State, a: Action)
    requires LogOk(s) && Enabled(s, a)
    ensures LogOk(Step(s, a))
  {
    match a
    case Persist(d, ok) => PersistLogged(s, d, ok);
    case Read(d, ok) => if ok { SameLogged(s, Step(s, a)); } else { MissLogged(s, d); }
    case Write(d, now, ok) => if ok { WriteLogged(s, d, now); } else { MissLogged(s, d); }
    case OtherUpdate(_, _) => SameLogged(s, Step(s, a));
    case Session(_) => SameLogged(s, Step(s, a));
  }

  lemma {:induction false} RunLogged(s: State, acts: seq<Action>)
    requires LogOk(s) && IsRun(s, acts)
    ensures LogOk(After(s, acts))
    decreases |acts|
  {
    if acts != [] {
      StepLogged(s, acts[0]);
      RunLogged(Step(s, acts[0]), acts[1..]);
    }
  }

  lemma PlusZero(t: Totals)
    ensures Plus(ZERO, t) == t && Plus(t, ZERO) == t
  {
  }

  lemma HeldZero()
    ensures Held(ZERO) == ZERO
  {
  }

  lemma NothingInHand(s: State)
    requires LogOk(s) && s.drains == map[]
    ensures LogTotals(s.log) == Plus(s.counted, s.skew)
  {
    assert LogOkAt(s, 0);
    PlusZero(Plus(s.counted, s.skew));
  }

  /** One total: `row` is what the column holds. */
  lemma ColumnExplained(row: int, lost: int, skew: int, start: int, counted: int)
    requires Wrap64(row) == row && Wrap64(row + lost) == Wrap64(start + counted)
    ensures Wrap64(row + (lost + skew)) == Wrap64(start + (counted + skew))
    ensures row == Wrap64(start + (counted + skew)) <==> Wrap64(lost + skew) == 0
  {
    WrapShifts(row + lost, start + counted, skew);
    WrapCancels(row, lost + skew, start + (counted + skew));
  }

  lemma Explained(row: Totals, lost: Totals, skew: Totals, start: Totals, counted: Totals)
    requires row == Held(row) && Held(Plus(row, lost)) == Held(Plus(start, counted))
    ensures Held(Plus(row, Plus(lost, skew))) == Held(Plus(start, Plus(counted, skew)))
    ensures row == Held(Plus(start, Plus(counted, skew))) <==> Held(Plus(lost, skew)) == ZERO
  {
    ColumnExplained(row.tokensIn, lost.tokensIn, skew.tokensIn, start.tokensIn, counted.tokensIn);
    ColumnExplained(row.tokensOut, lost.tokensOut, skew.tokensOut, start.tokensOut, counted.tokensOut);
  }

  /** Between events, what is in the log has been counted or makes the skew. */
  lemma LogOfRun(s: State, acts: seq<Action>)
    requires s.log == [] && s.drains == map[] && s.counted == ZERO && s.skew == ZERO
    requires IsRun(s, acts) && After(s, acts).drains == map[]
    ensures LogTotals(After(s, acts).log) == Plus(After(s, acts).counted, After(s, acts).skew)
  {
    forall n: nat ensures LogOkAt(s, n) {
      InHandNothing(s.drains, n);
      PlusZero(ZERO);
    }
    RunLogged(s, acts);
    NothingInHand(After(s, acts));
  }

  /** In every interleaving, whatever fails: between events, the totals are the initial ones
      plus the fold of CostOf over the persisted log exactly when what was lost and what was
      logged but not counted cancel out. */
  lemma LogExplainsTotals(s: State, acts: seq<Action>)
    requires Initial(s) && IsRun(s, acts) && After(s, acts).drains == map[]
    ensures var t := After(s, acts);
            && Held(Plus(TotalsOf(t.row), Plus(t.lost, t.skew))) == Held(Plus(TotalsOf(s.row), LogTotals(t.log)))
            && (TotalsOf(t.row) == Held(Plus(TotalsOf(s.row), LogTotals(t.log)))
                <==> Held(Plus(t.lost, t.skew)) == ZERO)
  {
    InitiallyBalanced(s);
    RunBalances(s, acts, TotalsOf(s.row));
    LogOfRun(s, acts);
    var t := After(s, acts);
    Explained(TotalsOf(t.row), t.lost, t.skew, TotalsOf(s.row), t.counted);
  }

  // ---- when nothing is skewed ----

  /** A cost is given up or counted as its event is out of the log or in it. */
  predicate CountsAsLogged(s: State, a: Action)
    requires Enabled(s, a)
  {
    match a
    case Read(d, ok) => ok || !s.drains[d].logged
    case Write(d, _, ok) => ok == s.drains[d].logged
    case _ => true
  }

  ghost predicate AlwaysCountsAsLogged(s: State, acts: seq<Action>)
    requires IsRun(s, acts)
    decreases |acts|
  {
    acts == [] || (CountsAsLogged(s, acts[0]) && AlwaysCountsAsLogged(Step(s, acts[0]), acts[1..]))
  }

  lemma StepNoSkew(s: State, a: Action)
    requires Enabled(s, a) && CountsAsLogged(s, a)
    ensures Step(s, a).skew == s.skew
  {
    if a.Write? && a.ok {
      WriteSettles(s, a.d, a.now);
    }
  }

  lemma {:induction false} RunNoSkew(s: State, acts: seq<Action>)
    requires IsRun(s, acts) && AlwaysCountsAsLogged(s, acts)
    ensures After(s, acts).skew == s.skew
    decreases |acts|
  {
    if acts != [] {
      StepNoSkew(s, acts[0]);
      RunNoSkew(Step(s, acts[0]), acts[1..]);
    }
  }

  /** So, over any number of sessions: with no Start in a gap, and no call that fails between
      an event's insert and its cost's write, the log explains the totals. */
  lemma LogExplainsGapFreeTotals(s: State, acts: seq<Action>)
    requires Initial(s) && IsGapFreeRun(s, acts) && IsRun(s, acts) && AlwaysCountsAsLogged(s, acts)
    requires After(s, acts).drains == map[]
    ensures var t := After(s, acts); TotalsOf(t.row) == Held(Plus(TotalsOf(s.row), LogTotals(t.log)))
  {
    GapFreeRunLosesNothing(s, acts);
    RunNoSkew(s, acts);
    LogExplainsTotals(s, acts);
    PlusZero(ZERO);
    HeldZero();
  }
}
