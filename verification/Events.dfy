/** Adapter events and their classifiers: internal/agent/adapter.go and events.go. */
module Events {
  import opened Wrappers

  datatype EventType =
    | EventText
    | EventReasoning
    | EventToolCall
    | EventToolResult
    | EventFileChange
    | EventCost
    | EventApproval
    | EventLag
    | EventError
    | EventDone

  /** The dynamic types a metadata entry takes. `Whole` stands for int, int32 and
      int64, `Floating` for float64, `Single` for float32. */
  datatype Meta = Whole(n: int) | Floating(r: real) | Single(r: real) | Str(s: string) | Flag(b: bool)

  /** The capacity of an adapter's event channel. */
  const CHANNEL_CAP := 64

  datatype AgentEvent = AgentEvent(kind: EventType, content: string, metadata: map<string, Meta>)

  datatype DoneReason = TurnComplete | Stopped | ErrorReason | ProcessExit | OtherReason(text: string)

  datatype Cost = Cost(tokensIn: int, tokensOut: int, costUsd: real)

  datatype Role = User | Assistant | Tool | System

  function MessageRole(e: AgentEvent): Role {
    match e.kind
    case EventText | EventReasoning | EventApproval => Assistant
    case EventToolCall | EventToolResult | EventFileChange => Tool
    case EventCost | EventLag | EventDone | EventError => System
  }

  predicate IsTerminalEvent(e: AgentEvent) {
    e.kind == EventDone
  }

  function ParseReason(text: string): DoneReason {
    if text == "turn_complete" then TurnComplete
    else if text == "stopped" then Stopped
    else if text == "error" then ErrorReason
    else if text == "process_exit" then ProcessExit
    else OtherReason(text)
  }

  /** Missing or malformed reasons count as a process exit. */
  function DoneReasonOf(e: AgentEvent): DoneReason {
    if e.kind == EventDone && "reason" in e.metadata && e.metadata["reason"].Str?
    then ParseReason(e.metadata["reason"].s)
    else ProcessExit
  }

  /** Go's float-to-integer conversion discards the fraction, towards zero. */
  function Truncate(r: real): int {
    if r >= 0.0 then r.Floor else -((-r).Floor)
  }

  function Int64FromAny(metadata: map<string, Meta>, key: string): int {
    if key !in metadata then 0
    else match metadata[key]
      case Whole(n) => n
      case Floating(r) => Truncate(r)
      case Single(r) => Truncate(r)
      case Str(_) => 0
      case Flag(_) => 0
  }

  function CostOf(e: AgentEvent): Option<Cost> {
    if e.kind != EventCost then None
    else Some(Cost(
      Int64FromAny(e.metadata, "tokens_in"),
      Int64FromAny(e.metadata, "tokens_out"),
      if "cost_usd" in e.metadata && e.metadata["cost_usd"].Floating? then e.metadata["cost_usd"].r else 0.0))
  }

  /** Go's 64-bit int addition wraps around. */
  function Wrap64(x: int): int {
    (x + 0x8000_0000_0000_0000) % 0x1_0000_0000_0000_0000 - 0x8000_0000_0000_0000
  }
}
