/** Replay-to-live handoff for one workspace: drains persist and then broadcast; clients
    subscribe, replay, then read live (manager.go, stream.go). */
module Handoff {
  import opened Wrappers
  import opened Events
  import opened Status
  import MessageLog
  import Sessions

  /** Something broadcast: the event, and its number if it could be persisted. */
  datatype Item = Item(ev: AgentEvent, no: Option<nat>)

  /** A row of the log; its number is its position. Prompts and notices of the server
      are persisted but never broadcast. */
  datatype Entry = FromAdapter(ev: AgentEvent) | FromServer

  const SUBSCRIBER_CAP := 256
  const REPLAY_LIMIT := 1000

  datatype Phase = Subscribed | Replaying(toSend: seq<nat>) | Live | Gone

  /** `dropped` and `truncated` record a full channel and a replay cut at its limit. */
  datatype Client = Client(
    since: int,
    phase: Phase,
    chan: seq<Item>,
    replayed: seq<nat>,
    live: seq<Item>,
    snapshot: nat,
    dropped: bool,
    truncated: bool)

  type DrainId = Sessions.DrainId
  type ClientId = nat

  datatype State = State(
    log: seq<Entry>,
    inflight: map<DrainId, Item>,
    clients: map<ClientId, Client>,
    ses: Sessions.State)

  datatype Action =
    | Persist(d: DrainId, ok: bool)
    | Broadcast(d: DrainId)
    | ServerWrites
    | Subscribe(c: ClientId, since: int)
    | QueryReplay(c: ClientId)
    | SendReplayFrame(c: ClientId)
    | GoLive(c: ClientId)
    | Receive(c: ClientId)
    | Leave(c: ClientId)
    | Session(a: Sessions.Action)

  predicate InPhase(s: State, c: ClientId, p: Phase) {
    c in s.clients && s.clients[c].phase == p
  }

  predicate HasEvent(s: State, d: DrainId) {
    d in s.ses.drains && s.ses.drains[d].pc.Handling?
  }

  /** A drain persists what it took, which fails under a cancelled context, and then
      broadcasts it either way. */
  predicate Enabled(s: State, a: Action) {
    match a
    case Persist(d, ok) => HasEvent(s, d) && d !in s.inflight && (ok ==> !s.ses.drains[d].cancelled)
    case Broadcast(d) => HasEvent(s, d) && d in s.inflight
    case ServerWrites => true
    case Subscribe(c, _) => c !in s.clients
    case QueryReplay(c) => InPhase(s, c, Subscribed)
    case SendReplayFrame(c) => c in s.clients && s.clients[c].phase.Replaying? && s.clients[c].phase.toSend != []
    case GoLive(c) => InPhase(s, c, Replaying([]))
    case Receive(c) => InPhase(s, c, Live) && s.clients[c].chan != []
    case Leave(c) => c in s.clients
    case Session(a) => Sessions.Enabled(s.ses, a)
  }

  /** The non-blocking send of broadcast to one subscriber. */
  function Offer(c: Client, item: Item): Client {
    if c.phase == Gone then c
    else if |c.chan| < SUBSCRIBER_CAP then c.(chan := c.chan + [item])
    else c.(dropped := true)
  }

  /** One receive of the live loop. */
  function Received(c: Client): Client
    requires c.chan != []
  {
    c.(chan := c.chan[1..], live := c.live + [c.chan[0]])
  }

  function Count(from: nat, n: nat): seq<nat> {
    seq(n, i requires 0 <= i < n => from + i)
  }

  /** The first number past `since`. */
  function First(since: int): nat {
    if since < 0 then 0 else since + 1
  }

  /** ListMessages(since, 1000) against the log as it is now. */
  function ReplayRows(length: nat, since: int): seq<nat> {
    var from := First(since);
    if from >= length then [] else Count(from, if length - from <= REPLAY_LIMIT then length - from else REPLAY_LIMIT)
  }

  function Step(s: State, a: Action): State
    requires Enabled(s, a)
  {
    match a
    case Persist(d, ok) =>
      var ev := s.ses.drains[d].pc.ev;
      if ok then s.(log := s.log + [FromAdapter(ev)], inflight := s.inflight[d := Item(ev, Some(|s.log|))])
      else s.(inflight := s.inflight[d := Item(ev, None)])
    case Broadcast(d) =>
      s.(inflight := s.inflight - {d},
         ses := Sessions.PassedOn(s.ses, d),
         clients := map c | c in s.clients :: Offer(s.clients[c], s.inflight[d]))
    case ServerWrites => s.(log := s.log + [FromServer])
    case Subscribe(c, since) =>
      s.(clients := s.clients[c := Client(since, Subscribed, [], [], [], 0, false, false)])
    case QueryReplay(c) =>
      var me := s.clients[c];
      s.(clients := s.clients[c := me.(phase := Replaying(ReplayRows(|s.log|, me.since)),
                                       snapshot := |s.log|,
                                       truncated := |s.log| - First(me.since) > REPLAY_LIMIT)])
    case SendReplayFrame(c) =>
      var me := s.clients[c];
      s.(clients := s.clients[c := me.(phase := Replaying(me.phase.toSend[1..]),
                                       replayed := me.replayed + [me.phase.toSend[0]])])
    case GoLive(c) => s.(clients := s.clients[c := s.clients[c].(phase := Live)])
    case Receive(c) => s.(clients := s.clients[c := Received(s.clients[c])])
    case Leave(c) => s.(clients := s.clients[c := s.clients[c].(phase := Gone)])
    case Session(a) => s.(ses := Sessions.Step(s.ses, a))
  }

  /** A broadcast reaches each client that is still there and has fewer than 256 items waiting,
      at the end of its channel; one with 256 waiting misses it, and that is all it records. */
  lemma BroadcastReaches(s: State, d: DrainId, c: ClientId)
    requires Enabled(s, Broadcast(d)) && c in s.clients
    ensures var s' := Step(s, Broadcast(d));
            && s'.clients.Keys == s.clients.Keys && s'.inflight == s.inflight - {d} && s'.log == s.log
            && var me, me' := s.clients[c], s'.clients[c];
               && (me.phase == Gone ==> me' == me)
               && (me.phase != Gone && |me.chan| < 256 ==> me' == me.(chan := me.chan + [s.inflight[d]]))
               && (me.phase != Gone && |me.chan| >= 256 ==> me' == me.(dropped := true))
  {
  }

  /** A replay counts as cut exactly when more than 1000 rows are past `since`. */
  lemma QueryCuts(s: State, c: ClientId)
    requires Enabled(s, QueryReplay(c))
    ensures var me, me' := s.clients[c], Step(s, QueryReplay(c)).clients[c];
            && me'.since == me.since && me'.dropped == me.dropped && me'.snapshot == |s.log|
            && (me'.truncated <==> |s.log| - (if me.since < 0 then 0 else me.since + 1) > 1000)
  {
  }

  /** Those are the numbers of the page the table returns. */
  lemma ReplayRowsArePage(t: MessageLog.Table, ws: string, since: int)
    requires MessageLog.GapFree(t.rows)
    ensures var page := MessageLog.Page(t, ws, since, REPLAY_LIMIT);
            var rows := ReplayRows(|MessageLog.LogOf(t.rows, ws)|, since);
            |page| == |rows| && forall i :: 0 <= i < |page| ==> page[i].no == rows[i]
  {
    MessageLog.PageIsSlice(t, ws, since, REPLAY_LIMIT);
    var log := MessageLog.LogOf(t.rows, ws);
    var from := MessageLog.From(since, |log|);
    var page := MessageLog.Page(t, ws, since, REPLAY_LIMIT);
    forall i | 0 <= i < |page| ensures page[i].no == from + i {
      assert page[i] == log[from + i];
    }
  }

  // ---- runs ----

  /** Before the workspace's first session of this server and its first client. */
  ghost predicate Initial(s: State) {
    && s.inflight == map[] && s.clients == map[]
    && s.ses.session == None && s.ses.drains == map[] && s.ses.victims == {}
  }

  ghost predicate IsRun(s: State, acts: seq<Action>)
    decreases |acts|
  {
    acts == [] || (Enabled(s, acts[0]) && IsRun(Step(s, acts[0]), acts[1..]))
  }

  ghost function After(s: State, acts: seq<Action>): State
    requires IsRun(s, acts)
    decreases |acts|
  {
    if acts == [] then s else After(Step(s, acts[0]), acts[1..])
  }

  // ---- delivery ----

  /** Numbers among broadcast items. */
  ghost predicate Carries(items: seq<Item>, n: nat) {
    exists i :: 0 <= i < |items| && items[i].no == Some(n)
  }

  ghost predicate Pending(s: State, n: nat) {
    exists d :: d in s.inflight && s.inflight[d].no == Some(n)
  }

  ghost predicate InReplay(c: Client, n: nat) {
    n in c.replayed || (c.phase.Replaying? && n in c.phase.toSend)
  }

  /** Row n has reached the client, or is still on its way to it. */
  ghost predicate OnItsWay(s: State, c: Client, n: nat) {
    c.phase == Subscribed || InReplay(c, n) || Carries(c.live, n) || Carries(c.chan, n) || Pending(s, n)
  }

  predicate Lossless(c: Client) {
    c.phase != Gone && !c.dropped && !c.truncated
  }

  ghost predicate DeliveryOk(s: State) {
    forall c, n: nat ::
      c in s.clients && Lossless(s.clients[c]) && s.clients[c].since < n < |s.log| && s.log[n].FromAdapter? ==>
      OnItsWay(s, s.clients[c], n)
  }

  lemma OfferDelivers(s: State, d: DrainId, c: ClientId, n: nat)
    requires Enabled(s, Broadcast(d)) && c in s.clients
    requires OnItsWay(s, s.clients[c], n) && Lossless(Offer(s.clients[c], s.inflight[d]))
    ensures OnItsWay(Step(s, Broadcast(d)), Step(s, Broadcast(d)).clients[c], n)
  {
    var me, item, s' := s.clients[c], s.inflight[d], Step(s, Broadcast(d));
    var me' := s'.clients[c];
    assert me'.chan == me.chan + [item];
    if Carries(me.chan, n) {
      var i :| 0 <= i < |me.chan| && me.chan[i].no == Some(n);
      assert me'.chan[i].no == Some(n);
    } else if Pending(s, n) {
      var e :| e in s.inflight && s.inflight[e].no == Some(n);
      if e == d {
        assert me'.chan[|me.chan|].no == Some(n);
      } else {
        assert e in s'.inflight && s'.inflight[e].no == Some(n);
      }
    }
  }

  lemma BroadcastDelivers(s: State, d: DrainId)
    requires DeliveryOk(s) && Enabled(s, Broadcast(d))
    ensures DeliveryOk(Step(s, Broadcast(d)))
  {
    var s' := Step(s, Broadcast(d));
    forall c, n: nat | c in s'.clients && Lossless(s'.clients[c]) && s'.clients[c].since < n < |s'.log|
      && s'.log[n].FromAdapter?
      ensures OnItsWay(s', s'.clients[c], n)
    {
      OfferDelivers(s, d, c, n);
    }
  }

  lemma PersistDelivers(s: State, a: Action)
    requires DeliveryOk(s) && Enabled(s, a) && (a.Persist? || a.ServerWrites?)
    ensures DeliveryOk(Step(s, a))
  {
    var s' := Step(s, a);
    forall c, n: nat | c in s'.clients && Lossless(s'.clients[c]) && s'.clients[c].since < n < |s'.log|
      && s'.log[n].FromAdapter?
      ensures OnItsWay(s', s'.clients[c], n)
    {
      if n < |s.log| {
        assert OnItsWay(s, s.clients[c], n);
        if Pending(s, n) {
          var e :| e in s.inflight && s.inflight[e].no == Some(n);
          assert e in s'.inflight && s'.inflight[e].no == Some(n);
        }
      } else {
        assert a.d in s'.inflight && s'.inflight[a.d].no == Some(n);
      }
    }
  }

  /** One client's own step moves rows along without losing any. */
  lemma ClientMoves(s: State, a: Action, n: nat)
    requires Enabled(s, a)
    requires a.QueryReplay? || a.SendReplayFrame? || a.GoLive? || a.Receive?
    requires OnItsWay(s, s.clients[a.c], n) && s.clients[a.c].since < n < |s.log| && Lossless(Step(s, a).clients[a.c])
    ensures OnItsWay(Step(s, a), Step(s, a).clients[a.c], n)
  {
    var me, me' := s.clients[a.c], Step(s, a).clients[a.c];
    if Pending(s, n) {
      var e :| e in s.inflight && s.inflight[e].no == Some(n);
      assert e in Step(s, a).inflight && Step(s, a).inflight[e].no == Some(n);
    }
    match a
    case QueryReplay(_) =>
      var rows := ReplayRows(|s.log|, me.since);
      assert rows[n - First(me.since)] == n;
    case SendReplayFrame(_) =>
      if n in me.replayed {
        assert n in me'.replayed;
      } else if n in me.phase.toSend {
        var i :| 0 <= i < |me.phase.toSend| && me.phase.toSend[i] == n;
        if i == 0 {
          assert me'.replayed[|me.replayed|] == n;
        } else {
          assert me'.phase.toSend[i - 1] == n;
        }
      }
    case GoLive(_) =>
    case Receive(_) =>
      if Carries(me.live, n) {
        var i :| 0 <= i < |me.live| && me.live[i].no == Some(n);
        assert me'.live[i].no == Some(n);
      } else if Carries(me.chan, n) {
        var i :| 0 <= i < |me.chan| && me.chan[i].no == Some(n);
        if i == 0 {
          assert me'.live[|me.live|].no == Some(n);
        } else {
          assert me'.chan[i - 1].no == Some(n);
        }
      }
  }

  lemma ClientDelivers(s: State, a: Action)
    requires DeliveryOk(s) && Enabled(s, a)
    requires !(a.Persist? || a.ServerWrites? || a.Broadcast?)
    ensures DeliveryOk(Step(s, a))
  {
    var s' := Step(s, a);
    forall c, n: nat | c in s'.clients && Lossless(s'.clients[c]) && s'.clients[c].since < n < |s'.log|
      && s'.log[n].FromAdapter?
      ensures OnItsWay(s', s'.clients[c], n)
    {
      if a.Session? || c != a.c {
        assert OnItsWay(s, s.clients[c], n);
        if Pending(s, n) {
          var e :| e in s.inflight && s.inflight[e].no == Some(n);
          assert e in s'.inflight && s'.inflight[e].no == Some(n);
        }
      } else if !a.Subscribe? {
        assert OnItsWay(s, s.clients[c], n);
        ClientMoves(s, a, n);
      }
    }
  }

  lemma StepDelivers(s: State, a: Action)
    requires DeliveryOk(s) && Enabled(s, a)
    ensures DeliveryOk(Step(s, a))
  {
    match a
    case Broadcast(d) => BroadcastDelivers(s, d);
    case Persist(_, _) => PersistDelivers(s, a);
    case ServerWrites => PersistDelivers(s, a);
    case _ => ClientDelivers(s, a);
  }

  lemma {:induction false} RunDelivers(s: State, acts: seq<Action>)
    requires DeliveryOk(s) && IsRun(s, acts)
    ensures DeliveryOk(After(s, acts))
    decreases |acts|
  {
    if acts != [] {
      StepDelivers(s, acts[0]);
      RunDelivers(Step(s, acts[0]), acts[1..]);
    }
  }

  /** Over every interleaving of any number of drains and clients: once a live client has
      read its channel and no broadcast is outstanding, every adapter event persisted past
      `since` has reached it by replay or live, unless its channel overflowed or the replay
      was cut at its limit. */
  lemma EveryEventReachesTheClient(s: State, acts: seq<Action>, c: ClientId, n: nat)
    requires Initial(s) && IsRun(s, acts)
    requires var t := After(s, acts);
             && t.inflight == map[] && InPhase(t, c, Live) && t.clients[c].chan == []
             && Lossless(t.clients[c]) && t.clients[c].since < n < |t.log| && t.log[n].FromAdapter?
    ensures var me := After(s, acts).clients[c]; n in me.replayed || Carries(me.live, n)
  {
    RunDelivers(s, acts);
    var t := After(s, acts);
    assert OnItsWay(t, t.clients[c], n);
  }

  // ---- the replay part ----

  function Sent(c: Client): seq<nat> {
    c.replayed + if c.phase.Replaying? then c.phase.toSend else []
  }

  /** What a client has been or will be replayed is the run of numbers after `since`. */
  ghost predicate ReplayOk(c: Client) {
    if c.phase == Subscribed then c.replayed == []
    else c.phase == Gone || Sent(c) == ReplayRows(c.snapshot, c.since)
  }

  lemma StepReplays(s: State, a: Action)
    requires Enabled(s, a) && forall c :: c in s.clients ==> ReplayOk(s.clients[c])
    ensures forall c :: c in Step(s, a).clients ==> ReplayOk(Step(s, a).clients[c])
  {
    match a
    case SendReplayFrame(c) =>
      var me := s.clients[c];
      assert me.replayed + me.phase.toSend == me.replayed + [me.phase.toSend[0]] + me.phase.toSend[1..];
    case _ =>
  }

  lemma {:induction false} RunReplays(s: State, acts: seq<Action>)
    requires IsRun(s, acts) && forall c :: c in s.clients ==> ReplayOk(s.clients[c])
    ensures forall c :: c in After(s, acts).clients ==> ReplayOk(After(s, acts).clients[c])
    decreases |acts|
  {
    if acts != [] {
      StepReplays(s, acts[0]);
      RunReplays(Step(s, acts[0]), acts[1..]);
    }
  }

  /** A client that is live was replayed exactly the rows after `since` that its query saw,
      once each and in order, up to the limit. */
  lemma ReplayIsTheLogPastSince(s: State, acts: seq<Action>, c: ClientId)
    requires Initial(s) && IsRun(s, acts) && InPhase(After(s, acts), c, Live)
    ensures var me := After(s, acts).clients[c];
            me.replayed == ReplayRows(me.snapshot, me.since)
  {
    RunReplays(s, acts);
    var me := After(s, acts).clients[c];
    assert ReplayOk(me);
    assert Sent(me) == me.replayed;
  }

  // ---- the live part ----

  predicate Before(a: Item, b: Item) {
    a.no.Some? && b.no.Some? ==> a.no.value < b.no.value
  }

  function Heard(c: Client): seq<Item> {
    c.live + c.chan
  }

  predicate InOrder(items: seq<Item>) {
    forall i, j :: 0 <= i < j < |items| ==> Before(items[i], items[j])
  }

  /** Numbers in flight are numbers of the log, and no two are the same. */
  ghost predicate InflightOk(s: State) {
    && (forall d :: d in s.inflight && s.inflight[d].no.Some? ==> s.inflight[d].no.value < |s.log|)
    && (forall d, e :: d in s.inflight && e in s.inflight && d != e && s.inflight[d].no.Some? ==>
          s.inflight[d].no != s.inflight[e].no)
  }

  lemma StepKeepsInflight(s: State, a: Action)
    requires InflightOk(s) && Enabled(s, a)
    ensures InflightOk(Step(s, a))
  {
  }

  lemma {:induction false} RunKeepsInflight(s: State, acts: seq<Action>)
    requires InflightOk(s) && IsRun(s, acts)
    ensures InflightOk(After(s, acts))
    decreases |acts|
  {
    if acts != [] {
      StepKeepsInflight(s, acts[0]);
      RunKeepsInflight(Step(s, acts[0]), acts[1..]);
    }
  }

  /** What is broadcast over a run, in order. */
  ghost function Broadcasts(s: State, acts: seq<Action>): seq<Item>
    requires IsRun(s, acts)
    decreases |acts|
  {
    if acts == [] then []
    else (if acts[0].Broadcast? then [s.inflight[acts[0].d]] else []) + Broadcasts(Step(s, acts[0]), acts[1..])
  }

  predicate Listening(c: Client) {
    c.phase != Gone && !c.dropped
  }

  lemma BroadcastHeard(s: State, d: DrainId, c: ClientId)
    requires Enabled(s, Broadcast(d)) && c in s.clients
    ensures var s' := Step(s, Broadcast(d));
            && c in s'.clients
            && (Listening(s'.clients[c]) ==>
                  Listening(s.clients[c]) && Heard(s'.clients[c]) == Heard(s.clients[c]) + [s.inflight[d]])
  {
    var me := s.clients[c];
    assert me.live + (me.chan + [s.inflight[d]]) == me.live + me.chan + [s.inflight[d]];
  }

  lemma OwnStepHeard(s: State, a: Action, c: ClientId)
    requires Enabled(s, a) && c in s.clients && !a.Broadcast?
    ensures var s' := Step(s, a);
            && c in s'.clients
            && (Listening(s'.clients[c]) ==>
                  Listening(s.clients[c]) && Heard(s'.clients[c]) == Heard(s.clients[c]))
  {
    var me := s.clients[c];
    if a.Receive? && a.c == c {
      assert me.chan == [me.chan[0]] + me.chan[1..];
    }
  }

  lemma StepHeard(s: State, a: Action, c: ClientId)
    requires Enabled(s, a) && c in s.clients
    ensures c in Step(s, a).clients
    ensures Listening(Step(s, a).clients[c]) ==>
              && Listening(s.clients[c])
              && Heard(Step(s, a).clients[c]) == Heard(s.clients[c]) + if a.Broadcast? then [s.inflight[a.d]] else []
  {
    if a.Broadcast? {
      BroadcastHeard(s, a.d, c);
    } else {
      OwnStepHeard(s, a, c);
      assert Heard(s.clients[c]) + [] == Heard(s.clients[c]);
    }
  }

  /** A client that listens throughout hears exactly what is broadcast, in that order. */
  lemma {:induction false} HeardIsBroadcast(s: State, acts: seq<Action>, c: ClientId)
    requires IsRun(s, acts) && c in s.clients
    ensures c in After(s, acts).clients
    ensures Listening(After(s, acts).clients[c]) ==>
              Listening(s.clients[c]) && Heard(After(s, acts).clients[c]) == Heard(s.clients[c]) + Broadcasts(s, acts)
    decreases |acts|
  {
    if acts != [] {
      StepHeard(s, acts[0], c);
      HeardIsBroadcast(Step(s, acts[0]), acts[1..], c);
    }
  }

  /** The broadcast takes the oldest numbered item in flight, or one without a number. */
  ghost predicate TakesOldest(s: State, d: DrainId)
    requires d in s.inflight
  {
    forall e :: e in s.inflight && e != d ==> Before(s.inflight[d], s.inflight[e])
  }

  ghost predicate Orderly(s: State, acts: seq<Action>)
    requires IsRun(s, acts)
    decreases |acts|
  {
    acts == [] || ((acts[0].Broadcast? ==> TakesOldest(s, acts[0].d)) && Orderly(Step(s, acts[0]), acts[1..]))
  }

  /** Everything still to be broadcast has a higher number than n. */
  ghost predicate AllAbove(s: State, n: nat) {
    n < |s.log| && forall d :: d in s.inflight && s.inflight[d].no.Some? ==> n < s.inflight[d].no.value
  }

  lemma {:induction false} BroadcastsAbove(s: State, acts: seq<Action>, n: nat)
    requires IsRun(s, acts) && AllAbove(s, n)
    ensures forall i :: 0 <= i < |Broadcasts(s, acts)| && Broadcasts(s, acts)[i].no.Some? ==>
            n < Broadcasts(s, acts)[i].no.value
    decreases |acts|
  {
    if acts != [] {
      BroadcastsAbove(Step(s, acts[0]), acts[1..], n);
    }
  }

  lemma {:induction false} OrderlyIsInOrder(s: State, acts: seq<Action>)
    requires InflightOk(s) && IsRun(s, acts) && Orderly(s, acts)
    ensures InOrder(Broadcasts(s, acts))
    decreases |acts|
  {
    if acts != [] {
      StepKeepsInflight(s, acts[0]);
      var t, rest := Step(s, acts[0]), Broadcasts(Step(s, acts[0]), acts[1..]);
      OrderlyIsInOrder(t, acts[1..]);
      if acts[0].Broadcast? {
        var first := s.inflight[acts[0].d];
        if first.no.Some? {
          assert AllAbove(t, first.no.value);
          BroadcastsAbove(t, acts[1..], first.no.value);
        }
      }
    }
  }

  lemma {:induction false} InflightIsBroadcast(s: State, acts: seq<Action>, e: DrainId) returns (i: nat)
    requires IsRun(s, acts) && e in s.inflight && After(s, acts).inflight == map[]
    ensures i < |Broadcasts(s, acts)| && Broadcasts(s, acts)[i] == s.inflight[e]
    decreases |acts|
  {
    if acts[0] == Broadcast(e) {
      i := 0;
    } else {
      var j := InflightIsBroadcast(Step(s, acts[0]), acts[1..], e);
      i := if acts[0].Broadcast? then j + 1 else j;
    }
  }

  lemma {:induction false} InOrderIsOrderly(s: State, acts: seq<Action>)
    requires InflightOk(s) && IsRun(s, acts) && After(s, acts).inflight == map[] && InOrder(Broadcasts(s, acts))
    ensures Orderly(s, acts)
    decreases |acts|
  {
    if acts != [] {
      StepKeepsInflight(s, acts[0]);
      var t := Step(s, acts[0]);
      var all, rest := Broadcasts(s, acts), Broadcasts(t, acts[1..]);
      assert rest == all[|all| - |rest|..];
      InOrderIsOrderly(t, acts[1..]);
      if acts[0].Broadcast? {
        var d := acts[0].d;
        forall e | e in s.inflight && e != d ensures Before(s.inflight[d], s.inflight[e]) {
          var i := InflightIsBroadcast(t, acts[1..], e);
          assert all[i + 1] == s.inflight[e] && all[0] == s.inflight[d];
        }
      }
    }
  }

  /** In every interleaving: a client that listens from its subscription on until nothing is
      in flight hears the events in log order exactly when every broadcast took the oldest
      numbered event in flight. */
  lemma HeardInOrderExactly(start: State, before: seq<Action>, acts: seq<Action>, c: ClientId)
    requires Initial(start) && IsRun(start, before)
    requires var s := After(start, before); IsRun(s, acts) && c in s.clients && Heard(s.clients[c]) == []
    requires var t := After(After(start, before), acts);
             t.inflight == map[] && c in t.clients && Listening(t.clients[c])
    ensures var s, t := After(start, before), After(After(start, before), acts);
            && Heard(t.clients[c]) == Broadcasts(s, acts)
            && (InOrder(Heard(t.clients[c])) <==> Orderly(s, acts))
  {
    var s := After(start, before);
    RunKeepsInflight(start, before);
    HeardIsBroadcast(s, acts, c);
    if Orderly(s, acts) {
      OrderlyIsInOrder(s, acts);
    } else if InOrder(Broadcasts(s, acts)) {
      InOrderIsOrderly(s, acts);
    }
  }

  /** A drain persists only when no other event is in flight. */
  ghost predicate OneAtATime(s: State, acts: seq<Action>)
    requires IsRun(s, acts)
    decreases |acts|
  {
    acts == [] || ((acts[0].Persist? ==> s.inflight == map[]) && OneAtATime(Step(s, acts[0]), acts[1..]))
  }

  ghost predicate AtMostOneInFlight(s: State) {
    forall d, e :: d in s.inflight && e in s.inflight ==> d == e
  }

  lemma {:induction false} OneAtATimeIsOrderly(s: State, acts: seq<Action>)
    requires IsRun(s, acts) && OneAtATime(s, acts) && AtMostOneInFlight(s)
    ensures Orderly(s, acts)
    decreases |acts|
  {
    if acts != [] {
      OneAtATimeIsOrderly(Step(s, acts[0]), acts[1..]);
    }
  }

  /** So with one event in flight at a time every client that listens hears in log order. */
  lemma LivePartIsInLogOrder(s: State, acts: seq<Action>, c: ClientId)
    requires InflightOk(s) && AtMostOneInFlight(s) && IsRun(s, acts) && OneAtATime(s, acts)
    requires c in s.clients && Heard(s.clients[c]) == []
    ensures c in After(s, acts).clients
    ensures var me := After(s, acts).clients[c]; Listening(me) ==> InOrder(Heard(me))
  {
    OneAtATimeIsOrderly(s, acts);
    OrderlyIsInOrder(s, acts);
    HeardIsBroadcast(s, acts, c);
  }

  // ---- events received twice ----

  /** A client subscribes in `s`, its replay is queried after `between`, and `after` follows. */
  ghost predicate Joins(s: State, c: ClientId, since: int, between: seq<Action>, after: seq<Action>) {
    && Enabled(s, Subscribe(c, since)) && IsRun(Joined(s, c, since), between)
    && Enabled(AtQuery(s, c, since, between), QueryReplay(c))
    && IsRun(Step(AtQuery(s, c, since, between), QueryReplay(c)), after)
  }

  ghost function Joined(s: State, c: ClientId, since: int): State
    requires Enabled(s, Subscribe(c, since))
  {
    Step(s, Subscribe(c, since))
  }

  ghost function AtQuery(s: State, c: ClientId, since: int, between: seq<Action>): State
    requires Enabled(s, Subscribe(c, since)) && IsRun(Joined(s, c, since), between)
  {
    After(Joined(s, c, since), between)
  }

  ghost function AtEnd(s: State, c: ClientId, since: int, between: seq<Action>, after: seq<Action>): State
    requires Joins(s, c, since, between, after)
  {
    After(Step(AtQuery(s, c, since, between), QueryReplay(c)), after)
  }

  /** What was broadcast since it subscribed. */
  ghost function BroadcastsSince(s: State, c: ClientId, since: int, between: seq<Action>, after: seq<Action>): seq<Item>
    requires Joins(s, c, since, between, after)
  {
    Broadcasts(Joined(s, c, since), between)
    + Broadcasts(Step(AtQuery(s, c, since, between), QueryReplay(c)), after)
  }

  lemma {:induction false} SinceStays(s: State, acts: seq<Action>, c: ClientId)
    requires IsRun(s, acts) && c in s.clients
    ensures c in After(s, acts).clients && After(s, acts).clients[c].since == s.clients[c].since
    ensures s.clients[c].phase != Subscribed ==> After(s, acts).clients[c].snapshot == s.clients[c].snapshot
    decreases |acts|
  {
    if acts != [] {
      StepSinceStays(s, acts[0], c);
      SinceStays(Step(s, acts[0]), acts[1..], c);
    }
  }

  lemma StepSinceStays(s: State, a: Action, c: ClientId)
    requires Enabled(s, a) && c in s.clients
    ensures var s' := Step(s, a);
            && c in s'.clients && s'.clients[c].since == s.clients[c].since
            && (s.clients[c].phase != Subscribed ==>
                  s'.clients[c].phase != Subscribed && s'.clients[c].snapshot == s.clients[c].snapshot)
  {
  }

  /** The replay of a client that is live is what the log held past `since` at its query. */
  lemma ReplayedSinceQuery(s: State, c: ClientId, since: int, between: seq<Action>, after: seq<Action>)
    requires Joins(s, c, since, between, after) && forall d :: d in s.clients ==> ReplayOk(s.clients[d])
    ensures var t := AtEnd(s, c, since, between, after);
            InPhase(t, c, Live) ==> t.clients[c].replayed == ReplayRows(|AtQuery(s, c, since, between).log|, since)
  {
    var s1, s2 := Joined(s, c, since), AtQuery(s, c, since, between);
    var s3 := Step(s2, QueryReplay(c));
    StepReplays(s, Subscribe(c, since));
    RunReplays(s1, between);
    SinceStays(s1, between, c);
    StepReplays(s2, QueryReplay(c));
    RunReplays(s3, after);
    SinceStays(s3, after, c);
    var me := After(s3, after).clients[c];
    assert ReplayOk(me);
    assert me.phase == Live ==> Sent(me) == me.replayed;
  }

  lemma HeardSinceSubscribing(s: State, c: ClientId, since: int, between: seq<Action>, after: seq<Action>)
    requires Joins(s, c, since, between, after)
    ensures var t := AtEnd(s, c, since, between, after);
            && c in t.clients
            && (Listening(t.clients[c]) ==> Heard(t.clients[c]) == BroadcastsSince(s, c, since, between, after))
  {
    var s1, s2 := Joined(s, c, since), AtQuery(s, c, since, between);
    HeardIsBroadcast(s1, between, c);
    StepHeard(s2, QueryReplay(c), c);
    HeardIsBroadcast(Step(s2, QueryReplay(c)), after, c);
    assert [] + Broadcasts(s1, between) + [] == Broadcasts(s1, between);
  }

  /** In every interleaving: a client that is live and listens gets an event both by replay and
      live exactly when the event was persisted before the client's query, past `since` and
      within the limit, and broadcast after its subscription. */
  lemma ReceivedTwiceExactly(start: State, before: seq<Action>, c: ClientId, since: int, between: seq<Action>,
                             after: seq<Action>, n: nat)
    requires Initial(start) && IsRun(start, before) && Joins(After(start, before), c, since, between, after)
    requires var t := AtEnd(After(start, before), c, since, between, after);
             InPhase(t, c, Live) && Listening(t.clients[c])
    ensures var s := After(start, before);
            var me := AtEnd(s, c, since, between, after).clients[c];
            n in me.replayed && Carries(Heard(me), n)
            <==> (&& since < n < |AtQuery(s, c, since, between).log| && n < First(since) + REPLAY_LIMIT
                  && Carries(BroadcastsSince(s, c, since, between, after), n))
  {
    var s := After(start, before);
    RunReplays(start, before);
    ReplayedSinceQuery(s, c, since, between, after);
    HeardSinceSubscribing(s, c, since, between, after);
    ReplayRowsMember(|AtQuery(s, c, since, between).log|, since, n);
  }

  /** Row n is an adapter's, and got into the log over the run. */
  predicate PersistedOver(from: State, to: State, n: nat) {
    |from.log| <= n < |to.log| && to.log[n].FromAdapter?
  }

  lemma {:induction false} LogOnlyGrows(s: State, acts: seq<Action>)
    requires IsRun(s, acts)
    ensures s.log <= After(s, acts).log
    decreases |acts|
  {
    if acts != [] {
      LogOnlyGrows(Step(s, acts[0]), acts[1..]);
    }
  }

  lemma StepPending(s: State, a: Action, n: nat)
    requires Enabled(s, a)
    ensures var s' := Step(s, a);
            Pending(s, n) || PersistedOver(s, s', n)
            <==> Pending(s', n) || (a.Broadcast? && s.inflight[a.d].no == Some(n))
  {
    var s' := Step(s, a);
    if Pending(s, n) {
      var e :| e in s.inflight && s.inflight[e].no == Some(n);
      assert a == Broadcast(e) || (e in s'.inflight && s'.inflight[e].no == Some(n));
    } else if PersistedOver(s, s', n) {
      assert s'.inflight[a.d].no == Some(n);
    }
  }

  lemma CarriesJoin(a: seq<Item>, b: seq<Item>, n: nat)
    ensures Carries(a + b, n) <==> Carries(a, n) || Carries(b, n)
  {
    if Carries(a, n) {
      var i :| 0 <= i < |a| && a[i].no == Some(n);
      assert (a + b)[i].no == Some(n);
    }
    if Carries(b, n) {
      var i :| 0 <= i < |b| && b[i].no == Some(n);
      assert (a + b)[|a| + i].no == Some(n);
    }
  }

  lemma CarriesOne(item: Item, n: nat)
    ensures Carries([item], n) <==> item.no == Some(n)
  {
    assert [item][0] == item;
  }

  /** What is broadcast over a run is what was in flight or got persisted, and is not in
      flight any more. */
  lemma {:induction false} BroadcastsAre(s: State, acts: seq<Action>, n: nat)
    requires IsRun(s, acts)
    ensures Carries(Broadcasts(s, acts), n) || Pending(After(s, acts), n)
            <==> Pending(s, n) || PersistedOver(s, After(s, acts), n)
    decreases |acts|
  {
    if acts != [] {
      var s', first := Step(s, acts[0]), if acts[0].Broadcast? then [s.inflight[acts[0].d]] else [];
      BroadcastsAre(s', acts[1..], n);
      StepPending(s, acts[0], n);
      CarriesJoin(first, Broadcasts(s', acts[1..]), n);
      if acts[0].Broadcast? {
        CarriesOne(s.inflight[acts[0].d], n);
      }
      LogOnlyGrows(s', acts[1..]);
    }
  }

  /** So once nothing is in flight, it got twice exactly the adapter events in its replay that
      were in flight when it subscribed or persisted between its subscription and its query. */
  lemma ReceivedTwiceIsUnsettled(start: State, before: seq<Action>, c: ClientId, since: int, between: seq<Action>,
                                 after: seq<Action>, n: nat)
    requires Initial(start) && IsRun(start, before) && Joins(After(start, before), c, since, between, after)
    requires var t := AtEnd(After(start, before), c, since, between, after);
             InPhase(t, c, Live) && Listening(t.clients[c]) && t.inflight == map[]
    ensures var s := After(start, before);
            var query, me := AtQuery(s, c, since, between), AtEnd(s, c, since, between, after).clients[c];
            n in me.replayed && Carries(Heard(me), n)
            <==> (&& since < n < First(since) + REPLAY_LIMIT && n < |query.log|
                  && (Pending(s, n) || PersistedOver(s, query, n)))
  {
    ReceivedTwiceExactly(start, before, c, since, between, after, n);
    var s := After(start, before);
    if n < |AtQuery(s, c, since, between).log| {
      BroadcastsSinceAre(s, c, since, between, after, n);
    }
  }

  lemma BroadcastsSinceAre(s: State, c: ClientId, since: int, between: seq<Action>, after: seq<Action>, n: nat)
    requires Joins(s, c, since, between, after) && AtEnd(s, c, since, between, after).inflight == map[]
    requires n < |AtQuery(s, c, since, between).log|
    ensures Carries(BroadcastsSince(s, c, since, between, after), n)
            <==> Pending(s, n) || PersistedOver(s, AtQuery(s, c, since, between), n)
  {
    var s1, s2 := Joined(s, c, since), AtQuery(s, c, since, between);
    var s3 := Step(s2, QueryReplay(c));
    BroadcastsAre(s1, between, n);
    BroadcastsAre(s3, after, n);
    CarriesJoin(Broadcasts(s1, between), Broadcasts(s3, after), n);
    assert Pending(s1, n) <==> Pending(s, n);
    assert Pending(s3, n) <==> Pending(s2, n);
  }

  // ---- two drains do reorder ----

  ghost predicate Reaches(s: State, t: State) {
    exists acts :: IsRun(s, acts) && After(s, acts) == t
  }

  lemma {:induction false} OneMoreStep(s: State, acts: seq<Action>, a: Action)
    requires IsRun(s, acts) && Enabled(After(s, acts), a)
    ensures IsRun(s, acts + [a]) && After(s, acts + [a]) == Step(After(s, acts), a)
    decreases |acts|
  {
    if acts == [] {
      assert [a][1..] == [] && acts + [a] == [a];
    } else {
      assert (acts + [a])[1..] == acts[1..] + [a];
      OneMoreStep(Step(s, acts[0]), acts[1..], a);
    }
  }

  lemma Then(s: State, t: State, a: Action) returns (u: State)
    requires Reaches(s, t) && Enabled(t, a)
    ensures u == Step(t, a) && Reaches(s, u)
  {
    var acts :| IsRun(s, acts) && After(s, acts) == t;
    OneMoreStep(s, acts, a);
    u := Step(t, a);
  }

  lemma Stays(s: State)
    ensures Reaches(s, s)
  {
    assert IsRun(s, []) && After(s, []) == s;
  }

  lemma Ses(s: State, t: State, a: Sessions.Action) returns (u: State)
    requires Reaches(s, t) && Sessions.Enabled(t.ses, a)
    ensures Reaches(s, u) && u == t.(ses := Sessions.Step(t.ses, a))
  {
    u := Then(s, t, Session(a));
  }

  /** The client is live, has lost nothing, and has this in its channel. */
  predicate Watching(t: State, c: ClientId, chan: seq<Item>) {
    InPhase(t, c, Live) && Lossless(t.clients[c]) && t.clients[c].live == [] && t.clients[c].chan == chan
  }

  lemma NowWatching(s: State, c: ClientId) returns (t: State)
    requires Initial(s)
    ensures Reaches(s, t) && t.log == s.log && t.inflight == map[] && t.ses == s.ses && Watching(t, c, [])
  {
    Stays(s);
    t := Then(s, s, Subscribe(c, |s.log|));
    t := Then(s, t, QueryReplay(c));
    t := Then(s, t, GoLive(c));
  }

  lemma Persisted(s: State, t: State, d: DrainId, ok: bool) returns (u: State)
    requires Reaches(s, t) && Enabled(t, Persist(d, ok))
    ensures Reaches(s, u) && u.ses == t.ses && u.clients == t.clients
    ensures var ev := t.ses.drains[d].pc.ev;
            && u.log == (if ok then t.log + [FromAdapter(ev)] else t.log)
            && u.inflight == t.inflight[d := Item(ev, if ok then Some(|t.log|) else None)]
  {
    u := Then(s, t, Persist(d, ok));
  }

  lemma Told(s: State, t: State, d: DrainId, c: ClientId, chan: seq<Item>) returns (u: State)
    requires Reaches(s, t) && Enabled(t, Broadcast(d)) && Watching(t, c, chan) && |chan| < SUBSCRIBER_CAP
    ensures Reaches(s, u) && u.log == t.log && u.inflight == t.inflight - {d}
    ensures u.ses == Sessions.PassedOn(t.ses, d) && Watching(u, c, chan + [t.inflight[d]])
  {
    u := Then(s, t, Broadcast(d));
  }

  /** The first session's drain has taken an event. */
  lemma FirstEvent(s: State, d: DrainId, ev: AgentEvent) returns (t: State)
    requires Initial(s) && CanTransition(s.ses.status, Running)
    ensures Reaches(s, t)
    ensures t == s.(ses := Sessions.State(Running, Some(d),
                      map[][d := Sessions.Drain([], false, false, Sessions.Handling(ev))], {}))
  {
    var ds: Sessions.Drains := map[];
    var x := Sessions.Drain([ev], false, false, Sessions.Selecting);
    Stays(s);
    Sessions.Started(s.ses.status, ds, {}, d);
    t := Ses(s, s, Sessions.Start(d));
    Sessions.Emitted(t.ses, ds, d, Sessions.IDLE, ev);
    t := Ses(s, t, Sessions.Emit(d, ev));
    assert Sessions.IDLE.(buf := [] + [ev]) == x;
    Sessions.Taken(t.ses, ds, d, x);
    t := Ses(s, t, Sessions.Take(d));
    assert [ev][1..] == [];
  }

  /** A client's replay is queried between the event's insert and its broadcast. */
  lemma QueriedBetween(s: State, t: State, c: ClientId, since: int, d: DrainId, ev: AgentEvent) returns (u: State)
    requires Reaches(s, t) && HasEvent(t, d)
    requires t.ses.drains[d] == Sessions.Drain([], false, false, Sessions.Handling(ev))
    requires t.inflight == map[] && c !in t.clients && First(since) == |t.log|
    ensures Reaches(s, u) && c in u.clients && !u.clients[c].dropped
    ensures u.clients[c].phase == Replaying([|t.log|]) && u.clients[c].replayed == [] && u.clients[c].live == []
    ensures u.clients[c].chan == [Item(ev, Some(|t.log|))] && u.inflight == map[]
  {
    u := Then(s, t, Subscribe(c, since));
    u := Persisted(s, u, d, true);
    assert ReplayRows(|t.log| + 1, since) == [|t.log|];
    u := Then(s, u, QueryReplay(c));
    u := Then(s, u, Broadcast(d));
  }

  /** From every fresh start and for any event, a run in which a client gets it twice. */
  lemma ReceivedTwice(s: State, c: ClientId, d: DrainId, ev: AgentEvent) returns (t: State)
    requires Initial(s) && CanTransition(s.ses.status, Running)
    ensures Reaches(s, t) && t.inflight == map[] && InPhase(t, c, Live) && Listening(t.clients[c])
    ensures t.clients[c].replayed == [|s.log|] && t.clients[c].live == [Item(ev, Some(|s.log|))]
  {
    t := FirstEvent(s, d, ev);
    t := QueriedBetween(s, t, c, |s.log| - 1, d, ev);
    t := Then(s, t, SendReplayFrame(c));
    t := Then(s, t, GoLive(c));
    t := Then(s, t, Receive(c));
  }

  /** A session is stopped with two turn_completes still buffered. */
  lemma StoppedEarly(s: State, t: State, d: DrainId) returns (u: State)
    requires Reaches(s, t) && CanTransition(t.ses.status, Running)
             && t.ses == Sessions.State(t.ses.status, None, map[], {})
    ensures Reaches(s, u)
    ensures u == t.(ses := Sessions.State(Cancelled, None,
                      map[][d := Sessions.Drain([Sessions.DONE, Sessions.DONE], true, true, Sessions.Selecting)], {}))
  {
    var ds: Sessions.Drains := map[];
    var x := Sessions.Drain([Sessions.DONE], false, false, Sessions.Selecting);
    var y := Sessions.Drain([Sessions.DONE, Sessions.DONE], false, false, Sessions.Selecting);
    Sessions.Started(t.ses.status, ds, {}, d);
    u := Ses(s, t, Sessions.Start(d));
    Sessions.Emitted(u.ses, ds, d, Sessions.IDLE, Sessions.DONE);
    u := Ses(s, u, Sessions.Emit(d, Sessions.DONE));
    assert Sessions.IDLE.(buf := [] + [Sessions.DONE]) == x;
    Sessions.Emitted(u.ses, ds, d, x, Sessions.DONE);
    u := Ses(s, u, Sessions.Emit(d, Sessions.DONE));
    assert x.(buf := [Sessions.DONE] + [Sessions.DONE]) == y;
    u := StopNow(s, u, ds, d, y);
  }

  lemma StopNow(s: State, t: State, ds: Sessions.Drains, d: DrainId, x: Sessions.Drain) returns (u: State)
    requires Reaches(s, t) && t.ses == Sessions.State(Running, Some(d), ds[d := x], {})
    ensures Reaches(s, u)
    ensures u == t.(ses := Sessions.State(Cancelled, None, ds[d := x.(closed := true, cancelled := true)], {}))
  {
    Sessions.StoppedAt(ds, d, x);
    u := Ses(s, t, Sessions.Stop);
    Sessions.CleanedUpAt(Cancelled, ds, d, x.(closed := true, cancelled := true));
    u := Ses(s, u, Sessions.Cleanup);
    u := Ses(s, u, Sessions.CancelVictim(d));
  }

  /** A stopped drain takes a turn_complete: nothing persisted, but broadcast all the same. */
  lemma LateTurn(s: State, t: State, ds: Sessions.Drains, d: DrainId, x: Sessions.Drain, c: ClientId, chan: seq<Item>)
    returns (u: State)
    requires Reaches(s, t) && t.ses.drains == ds[d := x] && d !in t.inflight
    requires x.pc == Sessions.Selecting && x.buf != [] && x.buf[0] == Sessions.DONE
    requires Watching(t, c, chan) && |chan| < SUBSCRIBER_CAP
    ensures Reaches(s, u) && u.log == t.log && u.inflight == t.inflight
            && Watching(u, c, chan + [Item(Sessions.DONE, None)])
    ensures u.ses == t.ses.(status := AwaitingInput, drains := ds[d := x.(buf := x.buf[1..])])
  {
    var y := x.(buf := x.buf[1..], pc := Sessions.Handling(Sessions.DONE));
    Sessions.Taken(t.ses, ds, d, x);
    u := Ses(s, t, Sessions.Take(d));
    u := Persisted(s, u, d, false);
    Sessions.PassedOnAt(u.ses, ds, d, y);
    assert t.inflight[d := Item(Sessions.DONE, None)] - {d} == t.inflight;
    u := Told(s, u, d, c, chan);
    Sessions.TurnEnded(u.ses, ds, d, y.(pc := Sessions.Handled(Sessions.DONE)));
    u := Ses(s, u, Sessions.Finish(d));
  }

  /** A new session's drain takes an event and persists it. */
  lemma NewEvent(s: State, t: State, d: DrainId, ev: AgentEvent, c: ClientId, chan: seq<Item>) returns (u: State)
    requires Reaches(s, t) && t.ses == Sessions.State(AwaitingInput, None, t.ses.drains, {})
    requires d !in t.ses.drains && d !in t.inflight && Watching(t, c, chan)
    ensures Reaches(s, u) && u.log == t.log + [FromAdapter(ev)] && Watching(u, c, chan)
    ensures u.inflight == t.inflight[d := Item(ev, Some(|t.log|))]
    ensures u.ses == Sessions.State(Running, Some(d),
                                    t.ses.drains[d := Sessions.Drain([], false, false, Sessions.Handling(ev))], {})
  {
    var ds := t.ses.drains;
    assert CanTransition(AwaitingInput, Running);
    Sessions.Started(AwaitingInput, ds, {}, d);
    u := Ses(s, t, Sessions.Start(d));
    Sessions.Emitted(u.ses, ds, d, Sessions.IDLE, ev);
    u := Ses(s, u, Sessions.Emit(d, ev));
    var x := Sessions.Drain([ev], false, false, Sessions.Selecting);
    assert Sessions.IDLE.(buf := [] + [ev]) == x;
    Sessions.Taken(u.ses, ds, d, x);
    u := Ses(s, u, Sessions.Take(d));
    assert [ev][1..] == [];
    u := Persisted(s, u, d, true);
  }

  /** From every fresh start and for any two events, a client hears them in the wrong order:
      the first was persisted by a drain whose session was then stopped, the second by its
      successor's, whose broadcast came first. */
  lemma TwoDrainsCanReorder(s: State, c: ClientId, d0: DrainId, d1: DrainId, d2: DrainId, ev1: AgentEvent,
                            ev2: AgentEvent)
    returns (t: State)
    requires Initial(s) && CanTransition(s.ses.status, Running) && d0 != d1 && d0 != d2 && d1 != d2
    ensures Reaches(s, t) && t.inflight == map[] && c in t.clients && Listening(t.clients[c])
    ensures t.log == s.log + [FromAdapter(ev1)] + [FromAdapter(ev2)]
    ensures Heard(t.clients[c]) == [Item(Sessions.DONE, None), Item(Sessions.DONE, None),
                                    Item(ev2, Some(|s.log| + 1)), Item(ev1, Some(|s.log|))]
    ensures !InOrder(Heard(t.clients[c]))
  {
    var u := BeforeTheRace(s, c, d0, d1, ev1);
    var v := SecondEvent(s, u, c, d0, d1, d2, ev1, ev2);
    var chan := [Item(Sessions.DONE, None), Item(Sessions.DONE, None)];
    t := SecondFirst(s, v, c, d1, d2, chan);
    var heard := Heard(t.clients[c]);
    assert heard == chan + [v.inflight[d2]] + [v.inflight[d1]];
    assert !Before(heard[2], heard[3]);
  }

  lemma BeforeTheRace(s: State, c: ClientId, d0: DrainId, d1: DrainId, ev1: AgentEvent) returns (t: State)
    requires Initial(s) && CanTransition(s.ses.status, Running) && d0 != d1
    ensures Reaches(s, t) && t.log == s.log + [FromAdapter(ev1)] && t.inflight == map[d1 := Item(ev1, Some(|s.log|))]
    ensures Watching(t, c, [Item(Sessions.DONE, None)])
    ensures t.ses == Sessions.State(Cancelled, None,
                                    map[][d0 := Sessions.Drain([Sessions.DONE], true, true, Sessions.Selecting)]
                                         [d1 := Sessions.Drain([], true, true, Sessions.Handling(ev1))], {})
  {
    var x0 := Sessions.Drain([Sessions.DONE, Sessions.DONE], true, true, Sessions.Selecting);
    t := NowWatching(s, c);
    t := StoppedEarly(s, t, d0);
    t := LateTurn(s, t, map[], d0, x0, c, []);
    assert x0.buf[1..] == [Sessions.DONE];
    var ds := t.ses.drains;
    t := NewEvent(s, t, d1, ev1, c, [Item(Sessions.DONE, None)]);
    t := StopNow(s, t, ds, d1, Sessions.Drain([], false, false, Sessions.Handling(ev1)));
  }

  lemma SecondEvent(s: State, t: State, c: ClientId, d0: DrainId, d1: DrainId, d2: DrainId, ev1: AgentEvent,
                    ev2: AgentEvent)
    returns (u: State)
    requires Reaches(s, t) && d0 != d1 && d0 != d2 && d1 != d2 && t.inflight.Keys == {d1}
    requires Watching(t, c, [Item(Sessions.DONE, None)])
    requires t.ses == Sessions.State(Cancelled, None,
                                     map[][d0 := Sessions.Drain([Sessions.DONE], true, true, Sessions.Selecting)]
                                          [d1 := Sessions.Drain([], true, true, Sessions.Handling(ev1))], {})
    ensures Reaches(s, u) && u.log == t.log + [FromAdapter(ev2)]
            && u.inflight == t.inflight[d2 := Item(ev2, Some(|t.log|))]
    ensures Watching(u, c, [Item(Sessions.DONE, None), Item(Sessions.DONE, None)]) && HasEvent(u, d1) && HasEvent(u, d2)
  {
    var x0 := Sessions.Drain([Sessions.DONE], true, true, Sessions.Selecting);
    var ds: Sessions.Drains := map[][d1 := Sessions.Drain([], true, true, Sessions.Handling(ev1))];
    assert t.ses.drains == ds[d0 := x0];
    u := LateTurn(s, t, ds, d0, x0, c, [Item(Sessions.DONE, None)]);
    assert [Item(Sessions.DONE, None)] + [Item(Sessions.DONE, None)] ==
           [Item(Sessions.DONE, None), Item(Sessions.DONE, None)];
    u := NewEvent(s, u, d2, ev2, c, [Item(Sessions.DONE, None), Item(Sessions.DONE, None)]);
  }

  lemma SecondFirst(s: State, t: State, c: ClientId, d1: DrainId, d2: DrainId, chan: seq<Item>) returns (u: State)
    requires Reaches(s, t) && d1 != d2 && HasEvent(t, d1) && HasEvent(t, d2) && t.inflight.Keys == {d1, d2}
    requires Watching(t, c, chan) && |chan| + 2 <= SUBSCRIBER_CAP
    ensures Reaches(s, u) && u.inflight == map[] && u.log == t.log
    ensures Watching(u, c, chan + [t.inflight[d2]] + [t.inflight[d1]])
  {
    u := Told(s, t, d2, c, chan);
    u := Told(s, u, d1, c, chan + [t.inflight[d2]]);
    assert u.inflight.Keys == t.inflight.Keys - {d2} - {d1};
  }

  // ---- the code ----

  /** Manager.subs for one workspace: a bounded channel per subscriber. */
  class Subscribers {
    var subs: map<nat, seq<Item>>

    constructor ()
      ensures subs == map[]
    {
      subs := map[];
    }

    method Subscribe(id: nat)
      requires id !in subs
      modifies this
      ensures subs == old(subs)[id := []]
    {
      subs := subs[id := []];
    }

    method Unsubscribe(id: nat)
      modifies this
      ensures subs == old(subs) - {id}
    {
      subs := subs - {id};
    }

    /** A receive from one subscriber's channel. */
    method Take(id: nat) returns (item: Item)
      requires id in subs && subs[id] != []
      modifies this
      ensures item == old(subs)[id][0] && subs == old(subs)[id := old(subs)[id][1..]]
    {
      item := subs[id][0];
      subs := subs[id := subs[id][1..]];
    }

    /** Every subscriber with room gets the item at its end; the others miss it silently. */
    method BroadcastItem(item: Item)
      modifies this
      ensures subs.Keys == old(subs).Keys
      ensures forall id :: id in subs ==>
        subs[id] == if |old(subs)[id]| < 256 then old(subs)[id] + [item] else old(subs)[id]
    {
      var todo := subs.Keys;
      while todo != {}
        invariant todo <= subs.Keys == old(subs).Keys
        invariant forall id :: id in todo ==> subs[id] == old(subs)[id]
        invariant forall id :: id in subs && id !in todo ==>
          subs[id] == if |old(subs)[id]| < 256 then old(subs)[id] + [item] else old(subs)[id]
        decreases |todo|
      {
        var id :| id in todo;
        if |subs[id]| < SUBSCRIBER_CAP {
          subs := subs[id := subs[id] + [item]];
        }
        todo := todo - {id};
      }
    }
  }

  /** A frame on the socket. The number is left out when it is zero, as omitempty does, and
      a live frame has none. */
  datatype Frame = ReplayFrame(no: Option<nat>) | LiveFrame(ev: AgentEvent)

  function ReplayFrameOf(no: nat): Frame {
    ReplayFrame(if no == 0 then None else Some(no))
  }

  /** What a client has been sent, as the socket shows it. */
  function FramesOf(replayed: seq<nat>, live: seq<Item>): seq<Frame> {
    seq(|replayed|, i requires 0 <= i < |replayed| => ReplayFrameOf(replayed[i]))
    + seq(|live|, i requires 0 <= i < |live| => LiveFrame(live[i].ev))
  }

  /** The number in a replay frame is the row's, but none for row 0; a live frame is the event,
      without a number. */
  lemma FramesShow(replayed: seq<nat>, live: seq<Item>, i: nat)
    requires i < |replayed| + |live|
    ensures var frames := FramesOf(replayed, live);
            && |frames| == |replayed| + |live|
            && (i < |replayed| && replayed[i] == 0 ==> frames[i] == ReplayFrame(None))
            && (i < |replayed| && replayed[i] != 0 ==> frames[i] == ReplayFrame(Some(replayed[i])))
            && (i >= |replayed| ==> frames[i] == LiveFrame(live[i - |replayed|].ev))
  {
  }

  /** The frames of a replay: the rows after `since` one by one, at most 1000. */
  lemma ReplayShows(length: nat, since: int, i: nat)
    ensures var frames, first := FramesOf(ReplayRows(length, since), []), if since < 0 then 0 else since + 1;
            && |frames| == (if length <= first then 0 else if length - first <= 1000 then length - first else 1000)
            && (i < |frames| ==> frames[i] == ReplayFrame(if first + i == 0 then None else Some(first + i)))
  {
  }

  lemma FramesJoin(replayed: seq<nat>, live: seq<Item>)
    ensures FramesOf(replayed, []) + FramesOf([], live) == FramesOf(replayed, live)
  {
  }

  lemma ReplayRowsMember(length: nat, since: int, n: nat)
    ensures n in ReplayRows(length, since) <==> since < n < length && n < First(since) + 1000
  {
    if since < n < length && n < First(since) + 1000 {
      assert ReplayRows(length, since)[n - First(since)] == n;
    }
  }

  /** replayPersisted: one frame per listed row, in order. */
  method ReplayPersisted(store: MessageLog.MessageStore, ws: string, since: int) returns (frames: seq<Frame>)
    requires MessageLog.GapFree(store.rows)
    ensures frames == FramesOf(ReplayRows(|MessageLog.LogOf(store.rows, ws)|, since), [])
  {
    var msgs := store.ListMessages(ws, since, 1000);
    ghost var rows := ReplayRows(|MessageLog.LogOf(store.rows, ws)|, since);
    ReplayRowsArePage(store.State(), ws, since);
    MessageLog.PageIsSlice(store.State(), ws, since, REPLAY_LIMIT);
    frames := [];
    for i := 0 to |msgs|
      invariant frames == FramesOf(rows[..i], [])
    {
      frames := frames + [ReplayFrameOf(msgs[i].no)];
    }
    assert rows[..|msgs|] == rows;
  }

  /** What happens next to a connected client: a broadcast elsewhere, or its loop receives. */
  datatype Round = Arrives(item: Item) | Receives

  /** The client after these rounds, by the steps of the protocol above. */
  function Watched(me: Client, rounds: seq<Round>): Client {
    if rounds == [] then me else Next(Watched(me, rounds[..|rounds| - 1]), rounds[|rounds| - 1])
  }

  function Next(me: Client, r: Round): Client {
    match r
    case Arrives(item) => Offer(me, item)
    case Receives => if me.chan == [] then me else Received(me)
  }

  lemma WatchedMore(me: Client, rounds: seq<Round>, r: Round)
    ensures Watched(me, rounds + [r]) == Next(Watched(me, rounds), r)
  {
    assert (rounds + [r])[..|rounds|] == rounds;
  }

  lemma {:induction false} WatchedPhase(me: Client, rounds: seq<Round>)
    ensures Watched(me, rounds).phase == me.phase
  {
    if rounds != [] {
      WatchedPhase(me, rounds[..|rounds| - 1]);
    }
  }

  function Connected(since: int): Client {
    Client(since, Live, [], [], [], 0, false, false)
  }

  function Arrivals(items: seq<Item>): seq<Round> {
    seq(|items|, i requires 0 <= i < |items| => Arrives(items[i]))
  }

  /** Broadcasts that fall into the replay wait in the subscriber's channel. */
  method LetArrive(subs: Subscribers, id: nat, items: seq<Item>, ghost me: Client)
    requires id in subs.subs && subs.subs[id] == me.chan && me.phase == Live
    modifies subs
    ensures subs.subs.Keys == old(subs.subs).Keys && subs.subs[id] == Watched(me, Arrivals(items)).chan
  {
    for i := 0 to |items|
      invariant subs.subs.Keys == old(subs.subs).Keys && subs.subs[id] == Watched(me, Arrivals(items[..i])).chan
    {
      WatchedPhase(me, Arrivals(items[..i]));
      WatchedMore(me, Arrivals(items[..i]), Arrives(items[i]));
      assert Arrivals(items[..i + 1]) == Arrivals(items[..i]) + [Arrives(items[i])];
      subs.BroadcastItem(items[i]);
    }
    assert items[..|items|] == items;
  }

  lemma OneMoreFrame(live: seq<Item>, item: Item)
    ensures FramesOf([], live + [item]) == FramesOf([], live) + [LiveFrame(item.ev)]
  {
  }

  /** One round of the live loop. */
  method PlayRound(subs: Subscribers, id: nat, r: Round, sent: seq<Frame>, ghost me: Client)
    returns (frames: seq<Frame>)
    requires id in subs.subs && subs.subs[id] == me.chan && me.phase == Live && sent == FramesOf([], me.live)
    modifies subs
    ensures subs.subs.Keys == old(subs.subs).Keys
    ensures subs.subs[id] == Next(me, r).chan && frames == FramesOf([], Next(me, r).live)
  {
    frames := sent;
    match r
    case Arrives(item) => subs.BroadcastItem(item);
    case Receives =>
      if |subs.subs[id]| > 0 {
        var item := subs.Take(id);
        OneMoreFrame(me.live, item);
        frames := frames + [LiveFrame(item.ev)];
      }
  }

  /** The live loop: each receive becomes a frame, while broadcasts go on. */
  method LiveLoop(subs: Subscribers, id: nat, rounds: seq<Round>, ghost me: Client) returns (frames: seq<Frame>)
    requires id in subs.subs && subs.subs[id] == me.chan && me.phase == Live && me.live == []
    modifies subs
    ensures subs.subs.Keys == old(subs.subs).Keys
    ensures frames == FramesOf([], Watched(me, rounds).live)
  {
    frames := [];
    for i := 0 to |rounds|
      invariant subs.subs.Keys == old(subs.subs).Keys
      invariant subs.subs[id] == Watched(me, rounds[..i]).chan && frames == FramesOf([], Watched(me, rounds[..i]).live)
    {
      WatchedPhase(me, rounds[..i]);
      WatchedMore(me, rounds[..i], rounds[i]);
      assert rounds[..i + 1] == rounds[..i] + [rounds[i]];
      frames := PlayRound(subs, id, rounds[i], frames, Watched(me, rounds[..i]));
    }
    assert rounds[..|rounds|] == rounds;
  }

  /** handleStreamWorkspace: subscribe, replay, then the live loop until the socket closes.
      `since` is the query parameter if it parses; `early` is broadcast during the replay. */
  method StreamWorkspace(subs: Subscribers, id: nat, store: MessageLog.MessageStore, ws: string, since: Option<int>,
                         early: seq<Item>, rounds: seq<Round>)
    returns (frames: seq<Frame>)
    requires id !in subs.subs && MessageLog.GapFree(store.rows)
    modifies subs
    ensures var from := if since.Some? then since.value else -1;
            frames == FramesOf(ReplayRows(|MessageLog.LogOf(store.rows, ws)|, from),
                               Watched(Watched(Connected(from), Arrivals(early)), rounds).live)
    ensures subs.subs.Keys == old(subs.subs).Keys
  {
    subs.Subscribe(id);
    var from := -1;
    if since.Some? {
      from := since.value;
    }
    var replayed := ReplayPersisted(store, ws, from);
    ghost var me := Watched(Connected(from), Arrivals(early));
    LetArrive(subs, id, early, Connected(from));
    ArrivalsKeepLive(Connected(from), early);
    var live := LiveLoop(subs, id, rounds, me);
    FramesJoin(ReplayRows(|MessageLog.LogOf(store.rows, ws)|, from), Watched(me, rounds).live);
    frames := replayed + live;
    subs.Unsubscribe(id);
  }

  lemma {:induction false} ArrivalsKeepLive(me: Client, items: seq<Item>)
    ensures Watched(me, Arrivals(items)).live == me.live && Watched(me, Arrivals(items)).phase == me.phase
  {
    if items != [] {
      var front := items[..|items| - 1];
      ArrivalsKeepLive(me, front);
      assert Arrivals(items) == Arrivals(front) + [Arrives(items[|items| - 1])];
      WatchedMore(me, Arrivals(front), Arrives(items[|items| - 1]));
    }
  }
}
