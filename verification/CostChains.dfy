/** What the totals are made of: the costs on one chain of writes, each of which had read
    the result of the one before (internal/agent/manager.go). */
module CostChains {
  import opened Events
  import opened CostLedger

  /** The costs of the first k writes. */
  function Sum(ws: seq<Link>, k: nat): Totals {
    if k == 0 || k > |ws| then ZERO else Add(Sum(ws, k - 1), ws[k - 1].cost)
  }

  /** The costs on the chain that ends in write k - 1: its own, and those of the chain whose
      result it had read. */
  function Chain(ws: seq<Link>, k: nat): Totals {
    if k == 0 || k > |ws| || ws[k - 1].base >= k then ZERO
    else Add(Chain(ws, ws[k - 1].base), ws[k - 1].cost)
  }

  lemma {:induction false} SumOfMore(ws: seq<Link>, l: Link, k: nat)
    requires k <= |ws|
    ensures Sum(ws + [l], k) == Sum(ws, k)
  {
    if k > 0 {
      SumOfMore(ws, l, k - 1);
    }
  }

  lemma {:induction false} ChainOfMore(ws: seq<Link>, l: Link, k: nat)
    requires k <= |ws|
    ensures Chain(ws + [l], k) == Chain(ws, k)
  {
    if k > 0 && ws[k - 1].base < k {
      ChainOfMore(ws, l, ws[k - 1].base);
    }
  }

  // ---- every run ----

  predicate ReadBack(ws: seq<Link>) {
    forall i :: 0 <= i < |ws| ==> ws[i].base <= i
  }

  /** A drain that has read holds the result of the write it names. */
  ghost predicate SeenOk(s: State, start: Totals) {
    forall d :: d in s.drains && s.drains[d].ToWrite? ==> SawChain(s.writes, start, s.drains[d])
  }

  predicate SawChain(ws: seq<Link>, start: Totals, pc: Pc) {
    pc.ToWrite? && pc.base <= |ws| && pc.seen == Held(Plus(start, Chain(ws, pc.base)))
  }

  ghost predicate ChainOk(s: State, start: Totals) {
    && ReadBack(s.writes) && SeenOk(s, start)
    && TotalsOf(s.row) == Held(Plus(start, Chain(s.writes, |s.writes|)))
    && s.counted == Sum(s.writes, |s.writes|)
  }

  lemma HeldAdds(start: Totals, x: Totals, c: Cost)
    ensures Held(Add(Held(Plus(start, x)), c)) == Held(Plus(start, Add(x, c)))
  {
    WrapAdds(start.tokensIn + x.tokensIn, c.tokensIn);
    WrapAdds(start.tokensOut + x.tokensOut, c.tokensOut);
  }

  lemma WriteChains(s: State, d: DrainId, now: int, start: Totals)
    requires ChainOk(s, start) && Enabled(s, Write(d, now, true))
    ensures ChainOk(Step(s, Write(d, now, true)), start)
  {
    var s', pc, ws := Step(s, Write(d, now, true)), s.drains[d], s.writes;
    assert SawChain(ws, start, pc);
    WriteEffect(s, d, now);
    WrittenRow(s, d, now);
    var l := Link(pc.base, pc.cost);
    HeldAdds(start, Chain(ws, pc.base), pc.cost);
    ChainOfMore(ws, l, pc.base);
    SumOfMore(ws, l, |ws|);
    forall e | e in s'.drains && s'.drains[e].ToWrite? ensures SawChain(s'.writes, start, s'.drains[e]) {
      assert SawChain(ws, start, s.drains[e]);
      ChainOfMore(ws, l, s.drains[e].base);
    }
  }

  lemma OtherStepChains(s: State, a: Action, start: Totals)
    requires ChainOk(s, start) && Enabled(s, a) && !(a.Write? && a.ok)
    ensures ChainOk(Step(s, a), start)
  {
    var s' := Step(s, a);
    assert s'.writes == s.writes && TotalsOf(s'.row) == TotalsOf(s.row) && s'.counted == s.counted;
    forall e | e in s'.drains && s'.drains[e].ToWrite? ensures SawChain(s'.writes, start, s'.drains[e]) {
      assert e in s.drains && s.drains[e].ToWrite? ==> SawChain(s.writes, start, s.drains[e]);
    }
  }

  lemma {:induction false} RunChains(s: State, acts: seq<Action>, start: Totals)
    requires ChainOk(s, start) && IsRun(s, acts)
    ensures ChainOk(After(s, acts), start)
    decreases |acts|
  {
    if acts != [] {
      if acts[0].Write? && acts[0].ok {
        WriteChains(s, acts[0].d, acts[0].now, start);
      } else {
        OtherStepChains(s, acts[0], start);
      }
      RunChains(Step(s, acts[0]), acts[1..], start);
    }
  }

  /** In every run, whatever overlaps and whatever fails: the totals are the initial ones plus
      the costs on the chain that ends in the last write; all writes together are what was
      counted. */
  lemma TotalsAreTheLastChain(s: State, acts: seq<Action>)
    requires Initial(s) && IsRun(s, acts)
    ensures var t := After(s, acts);
            && ReadBack(t.writes)
            && TotalsOf(t.row) == Held(Plus(TotalsOf(s.row), Chain(t.writes, |t.writes|)))
            && t.counted == Sum(t.writes, |t.writes|)
  {
    PlusZero(TotalsOf(s.row));
    RunChains(s, acts, TotalsOf(s.row));
  }

  // ---- costs that add something ----

  predicate AtMost(a: Totals, b: Totals) {
    a.tokensIn <= b.tokensIn && a.tokensOut <= b.tokensOut && a.costUsd <= b.costUsd
  }

  predicate Positive(c: Cost) {
    AtMost(ZERO, AsTotals(c)) && AsTotals(c) != ZERO
  }

  predicate AllPositive(ws: seq<Link>) {
    forall i :: 0 <= i < |ws| ==> Positive(ws[i].cost)
  }

  /** Each write had read the row as it was when the write went through. */
  predicate EachReadTheLast(ws: seq<Link>, k: nat)
    requires k <= |ws|
  {
    forall i :: 0 <= i < k ==> ws[i].base == i
  }

  lemma AddsMore(a: Totals, b: Totals, c: Cost)
    requires AtMost(a, b) && Positive(c)
    ensures AtMost(a, Add(b, c)) && Add(b, c) != a && AtMost(Add(a, c), Add(b, c))
    ensures Add(a, c) == Add(b, c) <==> a == b
  {
  }

  lemma {:induction false} SumGrows(ws: seq<Link>, j: nat, k: nat)
    requires AllPositive(ws) && j <= k <= |ws|
    ensures AtMost(Sum(ws, j), Sum(ws, k)) && (j < k ==> Sum(ws, j) != Sum(ws, k))
    ensures AtMost(ZERO, Sum(ws, j))
    decreases k
  {
    if j < k {
      SumGrows(ws, j, k - 1);
      AddsMore(Sum(ws, j), Sum(ws, k - 1), ws[k - 1].cost);
    } else if k > 0 {
      SumGrows(ws, k - 1, k - 1);
      AddsMore(ZERO, Sum(ws, k - 1), ws[k - 1].cost);
    }
  }

  lemma AtMostOrder(a: Totals, b: Totals, c: Totals)
    requires AtMost(a, b) && AtMost(b, c)
    ensures AtMost(a, c) && (a == c ==> b == c)
  {
  }

  /** A chain misses exactly the writes it did not read. */
  lemma {:induction false} ChainAgainstSum(ws: seq<Link>, k: nat)
    requires AllPositive(ws) && ReadBack(ws) && k <= |ws|
    ensures AtMost(ZERO, Chain(ws, k)) && AtMost(Chain(ws, k), Sum(ws, k))
    ensures Chain(ws, k) == Sum(ws, k) <==> EachReadTheLast(ws, k)
    decreases k
  {
    if k > 0 {
      var b, c := ws[k - 1].base, ws[k - 1].cost;
      ChainAgainstSum(ws, b);
      SumGrows(ws, b, k - 1);
      AtMostOrder(Chain(ws, b), Sum(ws, b), Sum(ws, k - 1));
      AddsMore(Chain(ws, b), Sum(ws, k - 1), c);
      AddsMore(ZERO, Chain(ws, b), c);
      assert EachReadTheLast(ws, k) <==> b == k - 1 && EachReadTheLast(ws, k - 1);
    }
  }

  lemma WrapApart(start: int, a: int, b: int)
    requires a <= b < a + 0x1_0000_0000_0000_0000
    ensures Wrap64(start + a) == Wrap64(start + b) <==> a == b
  {
  }

  /** No token count wraps around: what is added stays below two to the sixty-fourth. */
  predicate Fits(t: Totals) {
    t.tokensIn < 0x1_0000_0000_0000_0000 && t.tokensOut < 0x1_0000_0000_0000_0000
  }

  lemma HeldApart(start: Totals, a: Totals, b: Totals)
    requires AtMost(ZERO, a) && AtMost(a, b) && Fits(b)
    ensures Held(Plus(start, a)) == Held(Plus(start, b)) <==> a == b
  {
    WrapApart(start.tokensIn, a.tokensIn, b.tokensIn);
    WrapApart(start.tokensOut, a.tokensOut, b.tokensOut);
  }

  /** So, for costs that add something and do not wrap around, no cost is lost exactly when
      every write had read the row as it was when the write went through. */
  lemma ConservedExactlyWhenFresh(s: State, acts: seq<Action>)
    requires Initial(s) && IsRun(s, acts)
    requires AllPositive(After(s, acts).writes) && Fits(After(s, acts).counted)
    ensures var t := After(s, acts);
            TotalsOf(t.row) == Held(Plus(TotalsOf(s.row), t.counted)) <==> EachReadTheLast(t.writes, |t.writes|)
  {
    TotalsAreTheLastChain(s, acts);
    var t := After(s, acts);
    ChainAgainstSum(t.writes, |t.writes|);
    HeldApart(TotalsOf(s.row), Chain(t.writes, |t.writes|), t.counted);
  }

  // ---- the log, event for event ----

  /** Costs add something, and only costs of logged events get counted. */
  predicate CountsLogged(s: State, a: Action)
    requires Enabled(s, a)
  {
    match a
    case Persist(d, _) => CostOf(s.ses.drains[d].pc.ev).Some? ==> Positive(CostOf(s.ses.drains[d].pc.ev).value)
    case Write(d, _, ok) => ok ==> s.drains[d].logged
    case _ => true
  }

  ghost predicate CountsOnlyLogged(s: State, acts: seq<Action>)
    requires IsRun(s, acts)
    decreases |acts|
  {
    acts == [] || (CountsLogged(s, acts[0]) && CountsOnlyLogged(Step(s, acts[0]), acts[1..]))
  }

  /** applyCost's read or write fails for an event that is in the log. */
  predicate Misses(s: State, a: Action)
    requires Enabled(s, a)
  {
    ((a.Read? && !a.ok) || (a.Write? && !a.ok)) && s.drains[a.d].logged
  }

  ghost predicate NothingMissed(s: State, acts: seq<Action>)
    requires IsRun(s, acts)
    decreases |acts|
  {
    acts == [] || (!Misses(s, acts[0]) && NothingMissed(Step(s, acts[0]), acts[1..]))
  }

  ghost predicate AddsUp(s: State) {
    AllPositive(s.writes) && forall d :: d in s.drains ==> Positive(s.drains[d].cost)
  }

  lemma StepAddsUp(s: State, a: Action)
    requires AddsUp(s) && Enabled(s, a) && CountsLogged(s, a)
    ensures AddsUp(Step(s, a))
  {
    if a.Write? && a.ok {
      WriteEffect(s, a.d, a.now);
    }
  }

  lemma StepSkews(s: State, a: Action)
    requires AddsUp(s) && Enabled(s, a) && CountsLogged(s, a)
    ensures Misses(s, a) ==> exists c :: Positive(c) && Step(s, a).skew == Plus(s.skew, AsTotals(c))
    ensures !Misses(s, a) ==> Step(s, a).skew == s.skew
  {
    if a.Write? && a.ok {
      WriteSettles(s, a.d, a.now);
    } else if Misses(s, a) {
      assert Positive(s.drains[a.d].cost);
    }
  }

  lemma PlusMore(a: Totals, b: Totals, c: Cost)
    requires Positive(c) && AtMost(Plus(a, AsTotals(c)), b)
    ensures AtMost(a, b) && a != b
  {
  }

  /** What was logged and given up is nothing exactly when no such call failed. */
  lemma {:induction false} RunSkews(s: State, acts: seq<Action>)
    requires AddsUp(s) && IsRun(s, acts) && CountsOnlyLogged(s, acts)
    ensures AddsUp(After(s, acts)) && AtMost(s.skew, After(s, acts).skew)
    ensures After(s, acts).skew == s.skew <==> NothingMissed(s, acts)
    decreases |acts|
  {
    if acts != [] {
      var u := Step(s, acts[0]);
      StepAddsUp(s, acts[0]);
      StepSkews(s, acts[0]);
      RunSkews(u, acts[1..]);
      if Misses(s, acts[0]) {
        var c :| Positive(c) && u.skew == Plus(s.skew, AsTotals(c));
        PlusMore(s.skew, After(s, acts).skew, c);
      }
    }
  }

  lemma SumsOver(a: Totals, b: Totals, skew: Totals)
    requires AtMost(ZERO, a) && AtMost(a, b) && AtMost(ZERO, skew)
    ensures AtMost(a, Plus(b, skew)) && (a == Plus(b, skew) <==> a == b && skew == ZERO)
  {
  }

  /** The end of such a run: `ws` and `skew` are its writes and what it gave up. */
  lemma ExplainedWhenFresh(row: Totals, start: Totals, ws: seq<Link>, skew: Totals, logged: Totals)
    requires ReadBack(ws) && AllPositive(ws) && AtMost(ZERO, skew)
    requires row == Held(Plus(start, Chain(ws, |ws|))) && logged == Plus(Sum(ws, |ws|), skew) && Fits(logged)
    ensures row == Held(Plus(start, logged)) <==> EachReadTheLast(ws, |ws|) && skew == ZERO
  {
    ChainAgainstSum(ws, |ws|);
    SumsOver(Chain(ws, |ws|), Sum(ws, |ws|), skew);
    HeldApart(start, Chain(ws, |ws|), logged);
  }

  /** For costs that add something and do not wrap around, and with no event counted that is
      not in the log: between events, the totals are the initial ones plus the fold of CostOf
      over the log exactly when every write had read the row as it was when the write went
      through, and no read or write failed for an event in the log. */
  lemma LogExplainsExactly(s: State, acts: seq<Action>)
    requires Initial(s) && IsRun(s, acts) && CountsOnlyLogged(s, acts)
    requires After(s, acts).drains == map[] && Fits(LogTotals(After(s, acts).log))
    ensures var t := After(s, acts);
            TotalsOf(t.row) == Held(Plus(TotalsOf(s.row), LogTotals(t.log)))
            <==> EachReadTheLast(t.writes, |t.writes|) && NothingMissed(s, acts)
  {
    var t := After(s, acts);
    TotalsAreTheLastChain(s, acts);
    RunSkews(s, acts);
    LogOfRun(s, acts);
    ExplainedWhenFresh(TotalsOf(t.row), TotalsOf(s.row), t.writes, t.skew, LogTotals(t.log));
  }
}
