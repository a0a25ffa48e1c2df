/** The task lifecycle: the transition table, and event logs read as paths through it. */
module Lifecycle {

  datatype TaskState =
    | Received | Queued | Planning | Running | AwaitingApproval
    | Approved | Rejected | Completed | Failed | Cancelled

  function Allowed(s: TaskState): set<TaskState> {
    match s
    case Received => {Queued, Cancelled}
    case Queued => {Planning, Running, Cancelled}
    case Planning => {Running, AwaitingApproval, Failed, Cancelled}
    case Running => {AwaitingApproval, Completed, Failed, Cancelled}
    case AwaitingApproval => {Approved, Rejected, Cancelled}
    case Approved => {Running, Completed, Failed}
    case Rejected => {}
    case Completed => {}
    case Failed => {}
    case Cancelled => {}
  }

  predicate CanTransition(current: TaskState, target: TaskState) {
    target in Allowed(current)
  }

  /** The moves that are legal, by target. */
  lemma LegalMoves(s: TaskState, target: TaskState)
    ensures CanTransition(s, target)
       <==> match target
            case Received => false
            case Queued => s == Received
            case Planning => s == Queued
            case Running => s in {Queued, Planning, Approved}
            case AwaitingApproval => s in {Planning, Running}
            case Approved => s == AwaitingApproval
            case Rejected => s == AwaitingApproval
            case Completed => s in {Running, Approved}
            case Failed => s in {Planning, Running, Approved}
            case Cancelled => s in {Received, Queued, Planning, Running, AwaitingApproval}
    ensures IsTerminal(s) <==> forall next :: !CanTransition(s, next)
  {
    if !IsTerminal(s) {
      assert CanTransition(s, if s == Received then Queued else if s == AwaitingApproval then Approved
                              else if s == Queued then Planning else if s == Planning then Running else Completed);
    }
  }

  predicate IsTerminal(s: TaskState) {
    s in {Completed, Failed, Cancelled, Rejected}
  }

  /** The state a log of transitions leaves a task in; every task starts in Received. */
  function Replay(log: seq<TaskState>): TaskState {
    if log == [] then Received else log[|log| - 1]
  }

  /** Every entry of the log is a legal transition from the state replayed so far. */
  predicate LegalPath(log: seq<TaskState>) {
    forall i :: 0 <= i < |log| ==> CanTransition(Replay(log[..i]), log[i])
  }

  lemma LegalPathExtend(log: seq<TaskState>, target: TaskState)
    requires LegalPath(log)
    ensures LegalPath(log + [target]) <==> CanTransition(Replay(log), target)
  {
    var longer := log + [target];
    assert longer[..|log|] == log;
    assert forall i :: 0 <= i < |log| ==> longer[..i] == log[..i];
    if CanTransition(Replay(log), target) {
      forall i | 0 <= i < |longer| ensures CanTransition(Replay(longer[..i]), longer[i]) {
        assert i < |log| ==> longer[..i] == log[..i] && longer[i] == log[i];
      }
    } else {
      assert !CanTransition(Replay(longer[..|log|]), longer[|log|]);
    }
  }
}
