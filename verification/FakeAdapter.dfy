/** The scripted adapter (internal/agent/fake.go): replays started by prompts send their
    scripts into one bounded channel, under the lock that Stop closes it under. */
module FakeAdapters {
  import opened Events

  /** An event in the channel, with the replay and the script position it came from. */
  datatype Item = Item(replay: nat, at: nat, ev: AgentEvent)

  /** A replay goroutine: `at` events of the script handled, `lost` of them dropped. */
  datatype Replay = Replay(script: seq<AgentEvent>, at: nat, lost: nat, ended: bool)

  datatype Error = NoError | AlreadySpawned | NotSpawned | SpawnRefused | SendRefused

  /** `panicked` would be set by a send on, or a second close of, a closed channel. */
  datatype State = State(
    scripts: seq<seq<AgentEvent>>,
    spawnRefused: bool,
    sendRefused: bool,
    spawned: bool,
    stopped: bool,
    prompts: seq<string>,
    replays: seq<Replay>,
    chan: seq<Item>,
    closed: bool,
    closings: nat,
    panicked: bool,
    received: seq<Item>)

  function Fresh(scripts: seq<seq<AgentEvent>>, spawnRefused: bool, sendRefused: bool): State {
    State(scripts, spawnRefused, sendRefused, false, false, [], [], [], false, 0, false, [])
  }

  const DEFAULT_SCRIPT := [
    AgentEvent(EventText, "(fake adapter has no script; emitting default)", map[]),
    AgentEvent(EventDone, "", map["reason" := Str("turn_complete")])
  ]

  /** The script of the n-th prompt, counting from 0; the last one repeats. */
  function ScriptOf(scripts: seq<seq<AgentEvent>>, n: nat): seq<AgentEvent> {
    if scripts == [] then DEFAULT_SCRIPT
    else if n < |scripts| then scripts[n] else scripts[|scripts| - 1]
  }

  /** Prompt by prompt its own script; past the last one the last again; with none at all an
      explanation and the end of the turn. */
  lemma ScriptsInOrder(scripts: seq<seq<AgentEvent>>, n: nat)
    ensures n < |scripts| ==> ScriptOf(scripts, n) == scripts[n]
    ensures 0 < |scripts| <= n ==> ScriptOf(scripts, n) == scripts[|scripts| - 1]
    ensures |scripts| == 0 ==>
              ScriptOf(scripts, n) ==
              [AgentEvent(EventText, "(fake adapter has no script; emitting default)", map[]),
               AgentEvent(EventDone, "", map["reason" := Str("turn_complete")])]
  {
  }

  datatype Action =
    | Spawn
    | SendPrompt(prompt: string)
    | Advance(r: nat)
    | Abandon(r: nat)
    | Receive
    | Stop

  predicate Enabled(s: State, a: Action) {
    match a
    case Advance(r) => r < |s.replays| && !s.replays[r].ended
    case Abandon(r) => r < |s.replays| && !s.replays[r].ended
    case Receive => s.chan != []
    case _ => true
  }

  predicate Accepts(s: State) {
    s.spawned && !s.sendRefused && !s.stopped
  }

  /** One round of the replay loop: stopped, it returns; past its script, it ends;
      otherwise it sends the next event, or drops it when the channel is full. */
  function Advanced(s: State, r: nat): State
    requires Enabled(s, Advance(r))
  {
    var me := s.replays[r];
    if me.at >= |me.script| || s.stopped then s.(replays := s.replays[r := me.(ended := true)])
    else if s.closed then s.(panicked := true)
    else if |s.chan| < CHANNEL_CAP then
      s.(chan := s.chan + [Item(r, me.at, me.script[me.at])], replays := s.replays[r := me.(at := me.at + 1)])
    else s.(replays := s.replays[r := me.(at := me.at + 1, lost := me.lost + 1)])
  }

  function Step(s: State, a: Action): State
    requires Enabled(s, a)
  {
    match a
    case Spawn => if s.spawned || s.spawnRefused then s else s.(spawned := true)
    case SendPrompt(prompt) =>
      if !Accepts(s) then s
      else s.(prompts := s.prompts + [prompt],
              replays := s.replays + [Replay(ScriptOf(s.scripts, |s.prompts|), 0, 0, false)])
    case Advance(r) => Advanced(s, r)
    case Abandon(r) => s.(replays := s.replays[r := s.replays[r].(ended := true)])
    case Receive => s.(chan := s.chan[1..], received := s.received + [s.chan[0]])
    case Stop =>
      if s.stopped then s
      else s.(stopped := true, closed := true, closings := s.closings + 1, panicked := s.panicked || s.closed)
  }

  ghost predicate IsRun(s: State, acts: seq<Action>)
    decreases |acts|
  {
    acts == [] || (Enabled(s, acts[0]) && IsRun(Step(s, acts[0]), acts[1..]))
  }

  ghost function After(s: State, acts: seq<Action>): State
    requires IsRun(s, acts)
    decreases |acts|
  {
    if acts == [] then s else After(Step(s, acts[0]), acts[1..])
  }

  // ---- the invariant ----

  /** Everything ever sent: received, then still buffered. */
  function Sent(s: State): seq<Item> {
    s.received + s.chan
  }

  /** The script positions of one replay among the items, in order. */
  function Positions(items: seq<Item>, r: nat): seq<nat> {
    if items == [] then []
    else
      var last := items[|items| - 1];
      Positions(items[..|items| - 1], r) + if last.replay == r then [last.at] else []
  }

  predicate Increasing(ns: seq<nat>) {
    forall i, j :: 0 <= i < j < |ns| ==> ns[i] < ns[j]
  }

  predicate Below(ns: seq<nat>, n: nat) {
    forall i :: 0 <= i < |ns| ==> ns[i] < n
  }

  /** Each item is the script's event at its position. */
  predicate FromScripts(s: State) {
    forall i :: 0 <= i < |Sent(s)| ==>
      var it := Sent(s)[i];
      it.replay < |s.replays| && it.at < |s.replays[it.replay].script| && it.ev == s.replays[it.replay].script[it.at]
  }

  ghost predicate ReplayOk(s: State, r: nat)
    requires r < |s.replays|
  {
    var me, ns := s.replays[r], Positions(Sent(s), r);
    && me.script == ScriptOf(s.scripts, r)
    && me.at <= |me.script|
    && Increasing(ns) && Below(ns, me.at) && |ns| + me.lost == me.at
  }

  ghost predicate Ok(s: State) {
    && !s.panicked
    && s.closed == s.stopped
    && s.closings == (if s.stopped then 1 else 0)
    && |s.chan| <= CHANNEL_CAP
    && |s.replays| == |s.prompts|
    && FromScripts(s)
    && (forall r :: 0 <= r < |s.replays| ==> ReplayOk(s, r))
  }

  lemma PositionsAppend(items: seq<Item>, it: Item, r: nat)
    ensures Positions(items + [it], r) == Positions(items, r) + if it.replay == r then [it.at] else []
  {
    assert (items + [it])[..|items|] == items;
  }

  lemma {:induction false} PositionsJoin(a: seq<Item>, b: seq<Item>, r: nat)
    ensures Positions(a + b, r) == Positions(a, r) + Positions(b, r)
    decreases |b|
  {
    if b == [] {
      assert a + b == a;
    } else {
      PositionsJoin(a, b[..|b| - 1], r);
      assert (a + b)[..|a + b| - 1] == a + b[..|b| - 1];
    }
  }

  lemma {:induction false} NoPositions(items: seq<Item>, r: nat)
    requires forall i :: 0 <= i < |items| ==> items[i].replay != r
    ensures Positions(items, r) == []
  {
    if items != [] {
      NoPositions(items[..|items| - 1], r);
    }
  }

  /** One more event of replay r among the items: what ReplayOk says of them still holds. */
  lemma ReplaySends(s: State, s': State, r: nat, q: nat, it: Item)
    requires r < |s.replays| && q < |s.replays| && ReplayOk(s, q)
    requires s.replays[r].at < |s.replays[r].script| && it.replay == r && it.at == s.replays[r].at
    requires s'.scripts == s.scripts && Sent(s') == Sent(s) + [it]
    requires s'.replays == s.replays[r := s.replays[r].(at := s.replays[r].at + 1)]
    ensures ReplayOk(s', q)
  {
    PositionsAppend(Sent(s), it, q);
  }

  lemma EnqueueKeeps(s: State, r: nat)
    requires Ok(s) && Enabled(s, Advance(r)) && !s.stopped && s.replays[r].at < |s.replays[r].script|
    requires |s.chan| < CHANNEL_CAP
    ensures Ok(Step(s, Advance(r)))
  {
    var s', me := Step(s, Advance(r)), s.replays[r];
    var it := Item(r, me.at, me.script[me.at]);
    assert Sent(s') == Sent(s) + [it];
    forall q | 0 <= q < |s'.replays| ensures ReplayOk(s', q) {
      assert ReplayOk(s, q);
      ReplaySends(s, s', r, q, it);
    }
    assert FromScripts(s') by { StillFromScripts(s, s', it); }
  }

  lemma StillFromScripts(s: State, s': State, it: Item)
    requires FromScripts(s) && Sent(s') == Sent(s) + [it]
    requires |s'.replays| == |s.replays|
    requires forall q :: 0 <= q < |s.replays| ==> s'.replays[q].script == s.replays[q].script
    requires it.replay < |s.replays| && it.at < |s.replays[it.replay].script|
    requires it.ev == s.replays[it.replay].script[it.at]
    ensures FromScripts(s')
  {
    forall i | 0 <= i < |Sent(s')|
      ensures var x := Sent(s')[i];
              x.replay < |s'.replays| && x.at < |s'.replays[x.replay].script|
              && x.ev == s'.replays[x.replay].script[x.at]
    {
      assert i < |Sent(s)| ==> Sent(s')[i] == Sent(s)[i];
    }
  }

  /** A step that sends nothing and moves a replay only past a dropped event, or ends it. */
  lemma SilentKeeps(s: State, s': State)
    requires Ok(s) && Sent(s') == Sent(s)
    requires s'.scripts == s.scripts && |s'.replays| == |s.replays| == |s'.prompts|
    requires !s'.panicked && s'.closed == s'.stopped && s'.closings == (if s'.stopped then 1 else 0)
    requires |s'.chan| <= CHANNEL_CAP
    requires forall q :: 0 <= q < |s.replays| ==> SameProgress(s.replays[q], s'.replays[q])
    ensures Ok(s')
  {
    forall q | 0 <= q < |s'.replays| ensures ReplayOk(s', q) {
      assert ReplayOk(s, q);
      assert SameProgress(s.replays[q], s'.replays[q]);
    }
  }

  predicate SameProgress(me: Replay, me': Replay) {
    && me'.script == me.script && me.at <= me'.at <= |me.script|
    && me'.at - me.at == me'.lost - me.lost
  }

  lemma PromptKeeps(s: State, prompt: string)
    requires Ok(s)
    ensures Ok(Step(s, SendPrompt(prompt)))
  {
    var s' := Step(s, SendPrompt(prompt));
    assert Sent(s') == Sent(s);
    forall q | 0 <= q < |s'.replays| ensures ReplayOk(s', q) {
      if q < |s.replays| {
        assert ReplayOk(s, q);
      } else {
        NoPositions(Sent(s), q);
      }
    }
  }

  lemma StepKeeps(s: State, a: Action)
    requires Ok(s) && Enabled(s, a)
    ensures Ok(Step(s, a))
    ensures s.stopped ==> Sent(Step(s, a)) == Sent(s)
  {
    if a.SendPrompt? {
      PromptKeeps(s, a.prompt);
    } else if a.Advance? && !s.stopped && s.replays[a.r].at < |s.replays[a.r].script| && |s.chan| < CHANNEL_CAP {
      EnqueueKeeps(s, a.r);
    } else {
      assert Sent(Step(s, a)) == Sent(s);
      forall q | 0 <= q < |s.replays| ensures SameProgress(s.replays[q], Step(s, a).replays[q]) {
        assert ReplayOk(s, q);
      }
      SilentKeeps(s, Step(s, a));
    }
  }

  lemma {:induction false} RunKeeps(s: State, acts: seq<Action>)
    requires Ok(s) && IsRun(s, acts)
    ensures Ok(After(s, acts))
    ensures s.stopped ==> Sent(After(s, acts)) == Sent(s)
    decreases |acts|
  {
    if acts != [] {
      StepKeeps(s, acts[0]);
      assert s.stopped ==> Step(s, acts[0]).stopped;
      RunKeeps(Step(s, acts[0]), acts[1..]);
    }
  }

  // ---- theorems ----

  /** In every interleaving of prompts, replays, receives and stops: no send on a closed
      channel, no second close, never more than 64 events buffered. */
  lemma ChannelIsSafe(scripts: seq<seq<AgentEvent>>, f: bool, g: bool, acts: seq<Action>)
    requires IsRun(Fresh(scripts, f, g), acts)
    ensures var t := After(Fresh(scripts, f, g), acts);
            && !t.panicked && t.closed == t.stopped && t.closings == (if t.stopped then 1 else 0)
            && |t.chan| <= 64
  {
    RunKeeps(Fresh(scripts, f, g), acts);
  }

  /** Nothing is sent after Stop, whatever the replays still do. */
  lemma NothingSentAfterStop(scripts: seq<seq<AgentEvent>>, f: bool, g: bool, acts: seq<Action>, more: seq<Action>)
    requires IsRun(Fresh(scripts, f, g), acts)
    requires var s := After(Fresh(scripts, f, g), acts); s.stopped && IsRun(s, more)
    ensures var s := After(Fresh(scripts, f, g), acts); Sent(After(s, more)) == Sent(s)
  {
    RunKeeps(Fresh(scripts, f, g), acts);
    RunKeeps(After(Fresh(scripts, f, g), acts), more);
  }

  /** What was sent from a replay is an in-order selection from the script its prompt is due,
      and every event of the script it has passed was either sent or dropped; what the
      receiver has got is the first part of what was sent. */
  lemma ReplaysAreSubsequences(scripts: seq<seq<AgentEvent>>, f: bool, g: bool, acts: seq<Action>, r: nat)
    requires IsRun(Fresh(scripts, f, g), acts) && r < |After(Fresh(scripts, f, g), acts).replays|
    ensures var t := After(Fresh(scripts, f, g), acts);
            var ns := Positions(Sent(t), r);
            && t.replays[r].script == ScriptOf(scripts, r)
            && Increasing(ns) && Below(ns, t.replays[r].at)
            && |ns| + t.replays[r].lost == t.replays[r].at
            && Positions(t.received, r) <= ns
    ensures FromScripts(After(Fresh(scripts, f, g), acts))
  {
    RunKeeps(Fresh(scripts, f, g), acts);
    PositionsJoin(After(Fresh(scripts, f, g), acts).received, After(Fresh(scripts, f, g), acts).chan, r);
    ScriptsStay(Fresh(scripts, f, g), acts);
    assert ReplayOk(After(Fresh(scripts, f, g), acts), r);
  }

  lemma {:induction false} ScriptsStay(s: State, acts: seq<Action>)
    requires IsRun(s, acts)
    ensures After(s, acts).scripts == s.scripts
    decreases |acts|
  {
    if acts != [] {
      ScriptsStay(Step(s, acts[0]), acts[1..]);
    }
  }

  lemma {:induction false} AtLeastIndex(ns: seq<nat>, i: nat)
    requires Increasing(ns) && i < |ns|
    ensures ns[i] >= i
  {
    if i > 0 {
      AtLeastIndex(ns, i - 1);
    }
  }

  lemma {:induction false} AtMostIndex(ns: seq<nat>, n: nat, i: nat)
    requires Increasing(ns) && Below(ns, n) && i < |ns|
    ensures ns[i] < n - (|ns| - 1 - i)
    decreases |ns| - i
  {
    if i + 1 < |ns| {
      AtMostIndex(ns, n, i + 1);
    }
  }

  /** When a replay got through its script and nothing overflowed, its part of what was
      received and buffered is the whole script: position i carries event i. */
  lemma WholeScriptWhenNothingLost(scripts: seq<seq<AgentEvent>>, f: bool, g: bool, acts: seq<Action>, r: nat, i: nat)
    requires IsRun(Fresh(scripts, f, g), acts) && r < |After(Fresh(scripts, f, g), acts).replays|
    requires var me := After(Fresh(scripts, f, g), acts).replays[r]; me.lost == 0 && me.at == |me.script|
    requires i < |ScriptOf(scripts, r)|
    ensures var ns := Positions(Sent(After(Fresh(scripts, f, g), acts)), r);
            |ns| == |ScriptOf(scripts, r)| && ns[i] == i
  {
    ReplaysAreSubsequences(scripts, f, g, acts, r);
    var t := After(Fresh(scripts, f, g), acts);
    AtLeastIndex(Positions(Sent(t), r), i);
    AtMostIndex(Positions(Sent(t), r), t.replays[r].at, i);
  }

  // ---- the code ----

  class FakeAdapter {
    const scripts: seq<seq<AgentEvent>>
    const spawnRefused: bool
    const sendRefused: bool
    var spawned: bool
    var stopped: bool
    var prompts: seq<string>
    var replays: seq<Replay>
    var events: seq<Item>
    var closed: bool
    ghost var closings: nat
    ghost var panicked: bool
    ghost var received: seq<Item>

    constructor (scripts: seq<seq<AgentEvent>>, spawnRefused: bool, sendRefused: bool)
      ensures Abstract() == Fresh(scripts, spawnRefused, sendRefused) && Ok(Abstract())
    {
      this.scripts, this.spawnRefused, this.sendRefused := scripts, spawnRefused, sendRefused;
      spawned, stopped, prompts, replays, events, closed := false, false, [], [], [], false;
      closings, panicked, received := 0, false, [];
    }

    ghost function Abstract(): State
      reads this
    {
      State(scripts, spawnRefused, sendRefused, spawned, stopped, prompts, replays, events, closed, closings,
            panicked, received)
    }

    method SpawnAgent() returns (err: Error)
      requires Ok(Abstract())
      modifies this
      ensures Abstract() == Step(old(Abstract()), Spawn) && Ok(Abstract())
      ensures err == if old(spawned) then AlreadySpawned else if spawnRefused then SpawnRefused else NoError
    {
      StepKeeps(Abstract(), Spawn);
      if spawned {
        return AlreadySpawned;
      }
      if spawnRefused {
        return SpawnRefused;
      }
      spawned := true;
      return NoError;
    }

    method NextScript() returns (script: seq<AgentEvent>)
      requires prompts != []
      ensures script == ScriptOf(scripts, |prompts| - 1)
      ensures scripts != [] ==>
                script == scripts[if |prompts| <= |scripts| then |prompts| - 1 else |scripts| - 1]
    {
      if |scripts| == 0 {
        return DEFAULT_SCRIPT;
      }
      var idx := |prompts| - 1;
      if idx >= |scripts| {
        idx := |scripts| - 1;
      }
      return scripts[idx];
    }

    method Prompt(prompt: string) returns (err: Error)
      requires Ok(Abstract())
      modifies this
      ensures Abstract() == Step(old(Abstract()), SendPrompt(prompt)) && Ok(Abstract())
      ensures err == if !old(spawned) then NotSpawned else if sendRefused then SendRefused
                     else if old(stopped) then NotSpawned else NoError
      ensures err == NoError ==> prompts == old(prompts) + [prompt] && |replays| == |old(replays)| + 1
      ensures err == NoError && |old(prompts)| < |scripts| ==>
                replays == old(replays) + [Replay(scripts[|old(prompts)|], 0, 0, false)]
      ensures err != NoError ==> prompts == old(prompts) && replays == old(replays)
    {
      StepKeeps(Abstract(), SendPrompt(prompt));
      if !spawned {
        return NotSpawned;
      }
      if sendRefused {
        return SendRefused;
      }
      if stopped {
        return NotSpawned;
      }
      prompts := prompts + [prompt];
      var script := NextScript();
      replays := replays + [Replay(script, 0, 0, false)];
      return NoError;
    }

    /** One round of replay number r, under the lock. */
    method ReplayRound(r: nat)
      requires Ok(Abstract()) && Enabled(Abstract(), Advance(r))
      modifies this
      ensures Abstract() == Step(old(Abstract()), Advance(r)) && Ok(Abstract())
    {
      StepKeeps(Abstract(), Advance(r));
      var me := replays[r];
      if me.at >= |me.script| {
        replays := replays[r := me.(ended := true)];
        return;
      }
      if !stopped {
        if |events| < CHANNEL_CAP {
          panicked := panicked || closed;
          events := events + [Item(r, me.at, me.script[me.at])];
          replays := replays[r := me.(at := me.at + 1)];
        } else {
          replays := replays[r := me.(at := me.at + 1, lost := me.lost + 1)];
        }
      } else {
        replays := replays[r := me.(ended := true)];
      }
    }

    method StopAgent()
      requires Ok(Abstract())
      modifies this
      ensures Abstract() == Step(old(Abstract()), Stop) && Ok(Abstract()) && closed
    {
      StepKeeps(Abstract(), Stop);
      if stopped {
        return;
      }
      stopped := true;
      panicked := panicked || closed;
      closed, closings := true, closings + 1;
    }
  }
}
