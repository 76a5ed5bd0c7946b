/** The workspace state machine of internal/workspace/state.go. */
module Status {
  datatype Status =
    | Queued
    | Preparing
    | Idle
    | Running
    | AwaitingInput
    | AwaitingApproval
    | ResolvingConflict
    | ConflictStuck
    | Completed
    | Merged
    | Failed
    | Cancelled

  const ALLOWED_TRANSITIONS: map<Status, set<Status>> := map[
    Queued := {Preparing, Cancelled},
    Preparing := {Idle, Failed, Cancelled},
    Idle := {Completed, Cancelled, Preparing, Running},
    Running := {AwaitingInput, Failed, Cancelled, ResolvingConflict},
    AwaitingInput := {Running, Completed, Cancelled},
    Completed := {Merged, Cancelled, ResolvingConflict, ConflictStuck},
    ResolvingConflict := {Completed, ConflictStuck, Cancelled, Merged}
  ]

  predicate CanTransition(from: Status, to: Status) {
    from != to && from in ALLOWED_TRANSITIONS && to in ALLOWED_TRANSITIONS[from]
  }

  predicate IsTerminal(s: Status) {
    s == Merged || s == Failed || s == Cancelled || s == ConflictStuck
  }

  /** Setup statuses: the worktree is being made and no agent may exist yet. */
  predicate InSetup(s: Status) {
    s == Queued || s == Preparing || s == Idle
  }

  /** From where each status can be entered. */
  lemma EnteredExactlyFrom(from: Status, to: Status)
    ensures CanTransition(from, to) <==>
            match to
            case Queued => false
            case Preparing => from == Queued || from == Idle
            case Idle => from == Preparing
            case Running => from == Idle || from == AwaitingInput
            case AwaitingInput => from == Running
            case AwaitingApproval => false
            case ResolvingConflict => from == Running || from == Completed
            case ConflictStuck => from == Completed || from == ResolvingConflict
            case Completed => from == Idle || from == AwaitingInput || from == ResolvingConflict
            case Merged => from == Completed || from == ResolvingConflict
            case Failed => from == Preparing || from == Running
            case Cancelled =>
              from != Merged && from != Failed && from != Cancelled && from != ConflictStuck && from != AwaitingApproval
  {
  }

  /** A walk of the table: every consecutive pair is an allowed transition. */
  predicate IsWalk(walk: seq<Status>) {
    forall i :: 0 < i < |walk| ==> CanTransition(walk[i - 1], walk[i])
  }

  /** Terminal statuses have no way out. So has awaiting_approval, which the
      source does not call terminal. */
  lemma NoWayOut(s: Status)
    ensures (forall t :: !CanTransition(s, t)) <==> (IsTerminal(s) || s == AwaitingApproval)
  {
    if !(IsTerminal(s) || s == AwaitingApproval) {
      assert CanTransition(s, Cancelled);
    }
  }

  /** Cancelled is one step away from exactly the statuses that can be left at all. */
  lemma CancellableExactly(s: Status)
    ensures CanTransition(s, Cancelled) <==> exists t :: CanTransition(s, t)
  {
    NoWayOut(s);
  }

  /** A walk that leaves the setup statuses never comes back to one. */
  lemma {:induction false} SetupIsNotReentered(walk: seq<Status>, i: nat, j: nat)
    requires IsWalk(walk) && i <= j < |walk| && !InSetup(walk[i])
    ensures !InSetup(walk[j])
  {
    if i < j {
      SetupIsNotReentered(walk, i, j - 1);
      assert CanTransition(walk[j - 1], walk[j]);
    }
  }
}
