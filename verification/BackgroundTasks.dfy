/** Background task lifecycle: statuses, legal transitions, recovery classes. */
module BackgroundTasks {

  datatype Status =
    | Queued | Running | WaitingPermission | WaitingInput | Paused | Cancelling
    | Completed | Failed | Cancelled

  function Transitions(from: Status): set<Status> {
    match from
    case Queued => {Running, Cancelled}
    case Running => {WaitingPermission, WaitingInput, Paused, Cancelling, Completed, Failed, Cancelled}
    case WaitingPermission => {Running, Cancelled, Paused}
    case WaitingInput => {Running, Cancelled, Paused}
    case Paused => {Queued, Cancelled}
    case Cancelling => {Cancelled, Failed}
    case Completed => {}
    case Failed => {}
    case Cancelled => {}
  }

  predicate IsLegal(from: Status, to: Status) {
    to in Transitions(from)
  }

  /** Statuses that hold a worker slot. */
  predicate HoldsSlot(s: Status) {
    s == Running || s == WaitingPermission || s == WaitingInput || s == Cancelling
  }

  predicate IsTerminal(s: Status) {
    s == Completed || s == Failed || s == Cancelled
  }

  predicate IsParked(s: Status) {
    s == Paused || s == WaitingPermission || s == WaitingInput
  }

  datatype Disposition = Resumable | RequiresApproval | Abandoned

  function ClassifyRecovery(status: Status, attempt: nat): Disposition {
    match status
    case Running => if attempt <= 1 then Resumable else RequiresApproval
    case Queued => if attempt <= 1 then Resumable else RequiresApproval
    case WaitingPermission => RequiresApproval
    case WaitingInput => RequiresApproval
    case Cancelling => RequiresApproval
    case Paused => RequiresApproval
    case Completed => Abandoned
    case Failed => Abandoned
    case Cancelled => Abandoned
  }
}
