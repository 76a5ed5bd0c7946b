/** The OpenCode adapter (internal/agent/opencode.go): frames of the event stream become
    adapter events, and a turn is reported done once. */
module OpenCode {
  import opened Wrappers
  import opened Events
  import EventStream
  import Text

  /** A decoded frame: the session it names, if any, and what its properties decode to. */
  datatype Frame = Frame(session: string, body: Body)

  datatype Body =
    | PartDelta(field: string, delta: string)
    | PartUpdated(part: string, tokens: Option<Tokens>, cost: Option<real>)
    | MessageUpdated(role: string, finish: string)
    | Unhandled

  datatype Tokens = Tokens(input: int, output: int)

  /** Decoding JSON is left open: any partial function of the payload. */
  type Decoder = string -> Option<Frame>

  datatype State = State(session: string, model: string, doneEmitted: bool, events: seq<AgentEvent>)

  datatype Action = Prompt | Got(frame: Frame)

  const TURN_DONE := AgentEvent(EventDone, "", map["reason" := Str("turn_complete")])

  function ModelLabel(model: string): string {
    if model != "" then model else "opencode"
  }

  function CostMeta(model: string, tokens: Option<Tokens>, cost: Option<real>): map<string, Meta> {
    var t := match tokens
      case None => map[]
      case Some(n) => map["tokens_in" := Whole(n.input), "tokens_out" := Whole(n.output)];
    var c := match cost
      case None => t
      case Some(r) => t["cost_usd" := Floating(r)];
    c["model" := Str(ModelLabel(model))]
  }

  predicate IsForeign(session: string, f: Frame) {
    f.session != "" && f.session != session
  }

  predicate IsFinish(body: Body) {
    body == MessageUpdated("assistant", "stop")
  }

  function Emitted(model: string, doneEmitted: bool, body: Body): seq<AgentEvent> {
    match body
    case PartDelta(field, delta) =>
      if field == "text" || field == "" then [AgentEvent(EventText, delta, map[])]
      else if field == "reasoning" then [AgentEvent(EventReasoning, delta, map[])]
      else []
    case PartUpdated(part, tokens, cost) =>
      if part == "step-finish" then [AgentEvent(EventCost, "", CostMeta(model, tokens, cost))] else []
    case MessageUpdated(_, _) => if IsFinish(body) && !doneEmitted then [TURN_DONE] else []
    case Unhandled => []
  }

  function Step(s: State, a: Action): State {
    match a
    case Prompt => if s.session == "" then s else s.(doneEmitted := false)
    case Got(f) =>
      if IsForeign(s.session, f) then s
      else s.(events := s.events + Emitted(s.model, s.doneEmitted, f.body),
              doneEmitted := s.doneEmitted || IsFinish(f.body))
  }

  function After(s: State, acts: seq<Action>): State
    decreases |acts|
  {
    if acts == [] then s else After(Step(s, acts[0]), acts[1..])
  }

  function Handled(s: State, json: Decoder, payload: string): State {
    match json(payload)
    case None => s
    case Some(f) => Step(s, Got(f))
  }

  function HandledAll(s: State, json: Decoder, payloads: seq<string>): State
    decreases |payloads|
  {
    if payloads == [] then s else HandledAll(Handled(s, json, payloads[0]), json, payloads[1..])
  }

  lemma {:induction false} HandledJoin(s: State, json: Decoder, a: seq<string>, b: seq<string>)
    ensures HandledAll(s, json, a + b) == HandledAll(HandledAll(s, json, a), json, b)
    decreases |a|
  {
    if a == [] {
      assert a + b == b;
    } else {
      assert (a + b)[1..] == a[1..] + b;
      HandledJoin(Handled(s, json, a[0]), json, a[1..], b);
    }
  }

  // ---- one done per turn ----

  function Dones(events: seq<AgentEvent>): nat {
    if events == [] then 0
    else Dones(events[..|events| - 1]) + if events[|events| - 1].kind == EventDone then 1 else 0
  }

  /** A frame of this session, or of none. */
  predicate IsOwn(session: string, f: Frame) {
    f.session == "" || f.session == session
  }

  predicate Finishes(session: string, a: Action) {
    a.Got? && IsOwn(session, a.frame) && a.frame.body == MessageUpdated("assistant", "stop")
  }

  /** A frame that names another session does nothing. */
  lemma OtherSessionsAreIgnored(s: State, f: Frame)
    requires f.session != "" && f.session != s.session
    ensures Step(s, Got(f)) == s
  {
  }

  /** What each kind of frame of the adapter's own session adds to its events. */
  lemma OwnFramesEmit(s: State, f: Frame)
    requires f.session == "" || f.session == s.session
    ensures var added := Step(s, Got(f)).events;
            match f.body
            case MessageUpdated("assistant", "stop") =>
              && Step(s, Got(f)).doneEmitted
              && added == s.events + if s.doneEmitted then []
                                     else [AgentEvent(EventDone, "", map["reason" := Str("turn_complete")])]
            case PartDelta(field, delta) =>
              && (field == "text" || field == "" ==> added == s.events + [AgentEvent(EventText, delta, map[])])
              && (field == "reasoning" ==> added == s.events + [AgentEvent(EventReasoning, delta, map[])])
              && (field != "text" && field != "" && field != "reasoning" ==> added == s.events)
            case PartUpdated("step-finish", tokens, cost) =>
              exists m :: added == s.events + [AgentEvent(EventCost, "", m)] && Reports(m, s.model, tokens, cost)
            case _ => added == s.events
    ensures f.body != MessageUpdated("assistant", "stop") ==> Step(s, Got(f)).doneEmitted == s.doneEmitted
  {
    if f.body.PartUpdated? && f.body.part == "step-finish" {
      CostMetaReports(s.model, f.body.tokens, f.body.cost);
    }
  }

  /** The metadata of a cost event: what the frame has of tokens and cost, and the model. */
  predicate Reports(m: map<string, Meta>, model: string, tokens: Option<Tokens>, cost: Option<real>) {
    && ("tokens_in" in m <==> tokens.Some?) && ("tokens_out" in m <==> tokens.Some?)
    && (tokens.Some? ==> m["tokens_in"] == Whole(tokens.value.input) && m["tokens_out"] == Whole(tokens.value.output))
    && ("cost_usd" in m <==> cost.Some?) && (cost.Some? ==> m["cost_usd"] == Floating(cost.value))
    && "model" in m && m["model"] == Str(if model != "" then model else "opencode")
    && m.Keys <= {"tokens_in", "tokens_out", "cost_usd", "model"}
  }

  lemma CostMetaReports(model: string, tokens: Option<Tokens>, cost: Option<real>)
    ensures Reports(CostMeta(model, tokens, cost), model, tokens, cost)
  {
  }

  lemma StepDones(s: State, a: Action)
    ensures Dones(Step(s, a).events) == Dones(s.events) + if Finishes(s.session, a) && !s.doneEmitted then 1 else 0
    ensures Step(s, a).session == s.session && Step(s, a).model == s.model
    ensures Step(s, a).doneEmitted ==
            if a.Prompt? then s.doneEmitted && s.session == "" else s.doneEmitted || Finishes(s.session, a)
  {
    var s' := Step(s, a);
    if s'.events != s.events {
      assert s'.events[..|s'.events| - 1] == s.events;
    }
  }

  /** Within a turn, done is emitted exactly when it is due and the turn finishes, however
      often the final message is sent again. */
  lemma {:induction false} OneDonePerTurn(s: State, acts: seq<Action>)
    requires Prompt !in acts
    ensures var t := After(s, acts);
            var finished := exists i :: 0 <= i < |acts| && Finishes(s.session, acts[i]);
            && Dones(t.events) == Dones(s.events) + (if finished && !s.doneEmitted then 1 else 0)
            && t.doneEmitted == (s.doneEmitted || finished)
    decreases |acts|
  {
    if acts != [] {
      StepDones(s, acts[0]);
      OneDonePerTurn(Step(s, acts[0]), acts[1..]);
      assert forall i :: 1 <= i < |acts| ==> acts[i] == acts[1..][i - 1];
      assert forall i :: 0 <= i < |acts[1..]| ==> acts[1..][i] == acts[i + 1];
    }
  }

  function Prompts(acts: seq<Action>): nat {
    if acts == [] then 0 else (if acts[0].Prompt? then 1 else 0) + Prompts(acts[1..])
  }

  /** Over any run, at most one done for each prompt, and one for what came before. */
  lemma {:induction false} AtMostOneDonePerPrompt(s: State, acts: seq<Action>)
    ensures Dones(After(s, acts).events) <= Dones(s.events) + Prompts(acts) + if s.doneEmitted then 0 else 1
    decreases |acts|
  {
    if acts != [] {
      StepDones(s, acts[0]);
      AtMostOneDonePerPrompt(Step(s, acts[0]), acts[1..]);
    }
  }

  /** The bound is met: the last message of a turn, sent again after the next prompt, ends
      the new turn too. */
  lemma LateFinishEndsNextTurn(s: State, f: Frame)
    requires s.session != "" && !s.doneEmitted && Finishes(s.session, Got(f))
    ensures Dones(After(s, [Got(f), Prompt, Got(f)]).events) == Dones(s.events) + 2
  {
    var s1 := Step(s, Got(f));
    var s2 := Step(s1, Prompt);
    StepDones(s, Got(f));
    StepDones(s1, Prompt);
    StepDones(s2, Got(f));
    var last := [Got(f)];
    assert last[1..] == [] && After(s2, last) == Step(s2, Got(f));
    assert [Prompt, Got(f)][1..] == last;
    assert After(s1, [Prompt, Got(f)]) == After(s2, last);
    assert [Got(f), Prompt, Got(f)][1..] == [Prompt, Got(f)];
  }

  /** Frame i is the one that emits the done event. */
  predicate EmitsDone(s: State, frames: seq<Action>, i: nat)
    requires i < |frames|
  {
    Dones(After(s, frames[..i + 1]).events) > Dones(After(s, frames[..i]).events)
  }

  /** A final message is among the first k frames. */
  predicate FinishedBefore(session: string, frames: seq<Action>, k: nat)
    requires k <= |frames|
  {
    exists j :: 0 <= j < k && Finishes(session, frames[j])
  }

  lemma DonesOfPrefix(s: State, frames: seq<Action>, k: nat)
    requires Prompt !in frames && !s.doneEmitted && k <= |frames|
    ensures Dones(After(s, frames[..k]).events)
            == Dones(s.events) + if FinishedBefore(s.session, frames, k) then 1 else 0
  {
    OneDonePerTurn(s, frames[..k]);
    assert forall j :: 0 <= j < k ==> frames[..k][j] == frames[j];
  }

  /** When a done is due, the first final message emits it, and no other frame does. */
  lemma DoneIsTheFirstFinish(s: State, frames: seq<Action>, i: nat)
    requires Prompt !in frames && !s.doneEmitted && i < |frames|
    ensures EmitsDone(s, frames, i) <==> Finishes(s.session, frames[i]) && !FinishedBefore(s.session, frames, i)
  {
    DonesOfPrefix(s, frames, i);
    DonesOfPrefix(s, frames, i + 1);
  }

  lemma {:induction false} SomeFirstFinish(session: string, frames: seq<Action>, j: nat) returns (i: nat)
    requires j < |frames| && Finishes(session, frames[j])
    ensures i <= j && Finishes(session, frames[i]) && !FinishedBefore(session, frames, i)
    decreases j
  {
    i := j;
    if FinishedBefore(session, frames, j) {
      var k :| 0 <= k < j && Finishes(session, frames[k]);
      i := SomeFirstFinish(session, frames, k);
    }
  }

  /** The frames between a prompt and the next, of which `mine` belong to the turn it starts:
      a done event is the turn's own exactly when no other turn's final message gets in before
      the turn's own first one. */
  lemma DoneIsTheTurnsOwnExactly(s: State, frames: seq<Action>, mine: set<nat>)
    requires s.session != "" && Prompt !in frames
    ensures (forall i: nat :: i < |frames| && EmitsDone(Step(s, Prompt), frames, i) ==> i in mine)
            <==> (forall j: nat :: j < |frames| && Finishes(s.session, frames[j]) && j !in mine ==>
                    exists i :: 0 <= i < j && i in mine && Finishes(s.session, frames[i]))
  {
    var turn := Step(s, Prompt);
    forall i: nat | i < |frames|
      ensures EmitsDone(turn, frames, i) <==> Finishes(s.session, frames[i]) && !FinishedBefore(s.session, frames, i)
    {
      DoneIsTheFirstFinish(turn, frames, i);
    }
    if forall i: nat :: i < |frames| && EmitsDone(turn, frames, i) ==> i in mine {
      forall j: nat | j < |frames| && Finishes(s.session, frames[j]) && j !in mine
        ensures exists i :: 0 <= i < j && i in mine && Finishes(s.session, frames[i])
      {
        var i := SomeFirstFinish(s.session, frames, j);
        assert EmitsDone(turn, frames, i);
      }
    }
  }

  /** What other sessions do on the shared stream leaves no trace. */
  lemma {:induction false} ForeignFramesLeaveNoTrace(s: State, acts: seq<Action>)
    ensures After(s, acts) == After(s, Own(s.session, acts))
    decreases |acts|
  {
    if acts != [] {
      StepDones(s, acts[0]);
      ForeignFramesLeaveNoTrace(Step(s, acts[0]), acts[1..]);
      var own := Own(s.session, acts[1..]);
      if acts[0].Got? && !IsOwn(s.session, acts[0].frame) {
        OtherSessionsAreIgnored(s, acts[0].frame);
        assert [] + own == own;
      } else {
        assert ([acts[0]] + own)[1..] == own;
      }
    }
  }

  function Own(session: string, acts: seq<Action>): seq<Action> {
    if acts == [] then []
    else (if acts[0].Got? && !IsOwn(session, acts[0].frame) then [] else [acts[0]]) + Own(session, acts[1..])
  }

  // ---- what the manager reads back ----

  function OrZero(cost: Option<real>): real {
    match cost case None => 0.0 case Some(r) => r
  }

  function TokensOr(tokens: Option<Tokens>): Tokens {
    match tokens case None => Tokens(0, 0) case Some(t) => t
  }

  /** Every event the adapter emits means to the manager what the frame said: a done event
      is a completed turn, and a cost event costs what the step-finish part reports. */
  lemma EmittedMeans(model: string, doneEmitted: bool, body: Body)
    ensures forall e :: e in Emitted(model, doneEmitted, body) ==>
              && (e.kind == EventDone ==> IsFinish(body) && DoneReasonOf(e) == TurnComplete)
              && (CostOf(e) != None ==>
                    && body.PartUpdated?
                    && CostOf(e) ==
                      Some(Cost(TokensOr(body.tokens).input, TokensOr(body.tokens).output, OrZero(body.cost))))
  {
    if body.PartUpdated? {
      var m := CostMeta(model, body.tokens, body.cost);
      assert "tokens_in" in m <==> body.tokens.Some?;
      assert "tokens_out" in m <==> body.tokens.Some?;
      assert "cost_usd" in m <==> body.cost.Some?;
    }
  }

  // ---- the code ----

  class OpenCodeAdapter {
    const session: string
    const model: string
    const json: Decoder
    var turnDoneEmitted: bool
    var events: seq<AgentEvent>

    constructor (session: string, model: string, json: Decoder)
      ensures Abstract() == State(session, model, false, []) && this.json == json
    {
      this.session, this.model, this.json := session, model, json;
      turnDoneEmitted, events := false, [];
    }

    ghost function Abstract(): State
      reads this
    {
      State(session, model, turnDoneEmitted, events)
    }

    /** The part of SendPrompt before the request; `ok` is false when nothing was spawned. */
    method SendPrompt() returns (ok: bool)
      modifies this
      ensures Abstract() == Step(old(Abstract()), Prompt)
      ensures ok == (session != "")
    {
      if session == "" {
        return false;
      }
      turnDoneEmitted := false;
      return true;
    }

    method Emit(e: AgentEvent)
      modifies this
      ensures Abstract() == old(Abstract()).(events := old(events) + [e])
    {
      events := events + [e];
    }

    method HandlePartDelta(field: string, delta: string)
      modifies this
      ensures Abstract() == old(Abstract()).(events := old(events) + Emitted(model, false, PartDelta(field, delta)))
    {
      if field == "text" || field == "" {
        Emit(AgentEvent(EventText, delta, map[]));
      } else if field == "reasoning" {
        Emit(AgentEvent(EventReasoning, delta, map[]));
      }
    }

    method HandlePartUpdated(part: string, tokens: Option<Tokens>, cost: Option<real>)
      modifies this
      ensures Abstract() ==
              old(Abstract()).(events := old(events) + Emitted(model, false, PartUpdated(part, tokens, cost)))
    {
      if part == "step-finish" {
        var meta: map<string, Meta> := map[];
        if tokens.Some? {
          meta := meta["tokens_in" := Whole(tokens.value.input)];
          meta := meta["tokens_out" := Whole(tokens.value.output)];
        }
        if cost.Some? {
          meta := meta["cost_usd" := Floating(cost.value)];
        }
        meta := meta["model" := Str(ModelLabel(model))];
        assert meta == CostMeta(model, tokens, cost);
        Emit(AgentEvent(EventCost, "", meta));
      }
    }

    method HandleMessageUpdated(role: string, finish: string)
      modifies this
      ensures Abstract() == old(Abstract()).(
                events := old(events) + Emitted(model, old(turnDoneEmitted), MessageUpdated(role, finish)),
                doneEmitted := old(turnDoneEmitted) || IsFinish(MessageUpdated(role, finish)))
    {
      if role == "assistant" && finish == "stop" {
        var prev := turnDoneEmitted;
        turnDoneEmitted := true;
        if !prev {
          Emit(TURN_DONE);
        }
      }
    }

    method HandleSSEEvent(payload: string)
      modifies this
      ensures Abstract() == HandledAll(old(Abstract()), json, EventStream.OneOrNone(EventStream.Trim(payload)))
      ensures var ev := json(EventStream.Trim(payload));
              ev.None? || (ev.value.session != "" && ev.value.session != session) ==> Abstract() == old(Abstract())
    {
      var compact := EventStream.Trim(payload);
      if |compact| == 0 {
        return;
      }
      var ev := json(compact);
      ghost var s := Abstract();
      assert HandledAll(s, json, [compact]) == Handled(s, json, compact) by {
        assert [compact][1..] == [];
      }
      if ev.None? {
        return;
      }
      var sid := ev.value.session;
      if sid != "" && sid != session {
        return;
      }
      match ev.value.body
      case PartDelta(field, delta) => HandlePartDelta(field, delta);
      case PartUpdated(part, tokens, cost) => HandlePartUpdated(part, tokens, cost);
      case MessageUpdated(role, finish) => HandleMessageUpdated(role, finish);
      case Unhandled =>
    }

    /** The body of the read loop. */
    method ReadLine(line: string, buf: string, ghost s: State, ghost read: seq<string>, ghost i: nat,
                    ghost done: seq<seq<string>>, ghost open: seq<string>)
      returns (dataBuf: string, ghost done': seq<seq<string>>, ghost open': seq<string>)
      requires i < |read| && read[i] == line && Progress(s, Abstract(), json, read, i, buf, done, open)
      modifies this
      ensures Progress(s, Abstract(), json, read, i + 1, dataBuf, done', open')
    {
      dataBuf := buf;
      if line == "" {
        EventEnds(s, Abstract(), json, read, i, dataBuf, done, open);
        done', open' := done + [open], [];
        if |dataBuf| > 0 {
          HandleSSEEvent(dataBuf);
          dataBuf := "";
        }
        return;
      }
      LineAdds(s, Abstract(), json, read, i, dataBuf, done, open);
      done', open' := done, open + [line];
      if "data:" <= line {
        dataBuf := dataBuf + (line[5..] + "\n");
      } else {
        assert dataBuf + "" == dataBuf;
      }
    }

    /** The read loop: `read` are the lines it gets to see before Stop. */
    method ReadLines(lines: seq<string>, stopAt: nat, ghost read: seq<string>)
      requires read <= lines && |read| == if stopAt < |lines| then stopAt else |lines|
      modifies this
      ensures Abstract() == HandledAll(old(Abstract()), json, EventStream.Delivered(read))
    {
      var i, dataBuf := 0, "";
      ghost var s, done, open := Abstract(), [], [];
      Started(s, json, read);
      while i < |lines| && i < stopAt
        invariant 0 <= i <= |read| && Progress(s, Abstract(), json, read, i, dataBuf, done, open)
      {
        SameAt(read, lines, i);
        dataBuf, done, open := ReadLine(lines[i], dataBuf, s, read, i, done, open);
        i := i + 1;
      }
      Finished(s, Abstract(), json, read, dataBuf, done, open);
    }

    /** One connection that carried `text`; Stop is seen before line number `stopAt`. */
    method ConnectAndStream(text: string, stopAt: nat)
      modifies this
      ensures var lines := EventStream.Lines(text);
              var read := lines[..if stopAt < |lines| then stopAt else |lines|];
              Abstract() == HandledAll(old(Abstract()), json, EventStream.Delivered(read))
    {
      var lines := EventStream.Lines(text);
      ReadLines(lines, stopAt, lines[..if stopAt < |lines| then stopAt else |lines|]);
    }
  }

  /** The read loop before line i: the events in `done` are handled, the lines in `open`
      belong to the next one, and the buffer holds their data. */
  ghost predicate Progress(s: State, now: State, json: Decoder, read: seq<string>, i: nat, dataBuf: string,
                           done: seq<seq<string>>, open: seq<string>)
    requires i <= |read|
  {
    && dataBuf == EventStream.Data(open)
    && EventStream.Blocks(read, []) == done + EventStream.Blocks(read[i..], open)
    && now == HandledAll(s, json, EventStream.Payloads(done))
  }

  lemma SameAt(read: seq<string>, lines: seq<string>, i: nat)
    requires read <= lines && i < |read|
    ensures read[i] == lines[i]
  {
  }

  lemma Started(s: State, json: Decoder, read: seq<string>)
    ensures Progress(s, s, json, read, 0, "", [], [])
  {
    assert read[0..] == read;
  }

  lemma EventEnds(s: State, now: State, json: Decoder, read: seq<string>, i: nat, dataBuf: string,
                  done: seq<seq<string>>, open: seq<string>)
    requires i < |read| && read[i] == "" && Progress(s, now, json, read, i, dataBuf, done, open)
    ensures var payload := EventStream.OneOrNone(EventStream.Trim(dataBuf));
            Progress(s, HandledAll(now, json, payload), json, read, i + 1, "", done + [open], [])
    ensures dataBuf == "" ==> HandledAll(now, json, EventStream.OneOrNone(EventStream.Trim(dataBuf))) == now
  {
    var payload := EventStream.OneOrNone(EventStream.Trim(dataBuf));
    EventStream.PayloadsJoin(done, [open]);
    assert [open][1..] == [];
    assert EventStream.Payloads([open]) == payload;
    HandledJoin(s, json, EventStream.Payloads(done), payload);
    assert read[i..][1..] == read[i + 1..];
    Text.Assoc(done, [open], EventStream.Blocks(read[i + 1..], []));
  }

  lemma LineAdds(s: State, now: State, json: Decoder, read: seq<string>, i: nat, dataBuf: string,
                 done: seq<seq<string>>, open: seq<string>)
    requires i < |read| && read[i] != "" && Progress(s, now, json, read, i, dataBuf, done, open)
    ensures Progress(s, now, json, read, i + 1, dataBuf + EventStream.Ours(read[i]), done, open + [read[i]])
  {
    DataGrows(open, read[i]);
    assert read[i..][1..] == read[i + 1..];
  }

  lemma Finished(s: State, now: State, json: Decoder, read: seq<string>, dataBuf: string,
                 done: seq<seq<string>>, open: seq<string>)
    requires Progress(s, now, json, read, |read|, dataBuf, done, open)
    ensures now == HandledAll(s, json, EventStream.Delivered(read))
  {
    assert read[|read|..] == [];
    assert done + [] == done;
  }

  lemma {:induction false} DataGrows(block: seq<string>, line: string)
    ensures EventStream.Data(block + [line]) == EventStream.Data(block) + EventStream.Ours(line)
  {
    if block != [] {
      assert (block + [line])[1..] == block[1..] + [line];
      DataGrows(block[1..], line);
    }
  }
}
