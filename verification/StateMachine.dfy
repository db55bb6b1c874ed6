/** The three transition tables, row by row, and paths along them. */
module StateMachine {
  import opened Rows

  predicate CanTask(from: TaskStatus, to: TaskStatus) {
    match from
    case Created => to.Queued? || to.Cancelled?
    case Queued => to.Running? || to.Cancelled?
    case Running => to.AwaitingApproval? || to.NeedsAttention? || to.Failed? || to.Cancelled?
    case NeedsAttention => to.Queued? || to.Cancelled?
    case AwaitingApproval => to.Approved? || to.Rejected? || to.Cancelled?
    case Approved => to.PrCreated? || to.PrFailed? || to.Cancelled?
    case PrFailed => to.Approved? || to.Cancelled?
    case PrCreated => to.Resolved?
    case Resolved => false
    case Rejected => false
    case Failed => false
    case Cancelled => false
  }

  predicate CanRun(from: RunStatus, to: RunStatus) {
    match from
    case Pending => to.Dispatched? || to.Cancelled?
    case Dispatched => to.Running? || to.Interrupted? || to.Cancelled?
    case Running => to.Verifying? || to.Interrupted? || to.Cancelled?
    case Verifying => to.Succeeded? || to.Running? || to.Interrupted? || to.Cancelled?
    case Interrupted => to.Recovering? || to.Failed? || to.Cancelled?
    case Recovering => to.Dispatched? || to.Failed? || to.Cancelled?
    case Succeeded => false
    case Failed => false
    case Cancelled => false
  }

  predicate CanAttempt(from: AttemptStatus, to: AttemptStatus) {
    match from
    case Claimed => to.Running? || to.Failed? || to.LeaseExpired?
    case Running => to.Succeeded? || to.Failed? || to.Crashed? || to.TimedOut? || to.LeaseExpired?
    case Succeeded => false
    case Failed => false
    case Crashed => false
    case TimedOut => false
    case LeaseExpired => false
  }

  /** The table of runs read the other way: from where a status can be reached. */
  lemma RunPredecessors(from: RunStatus, to: RunStatus)
    ensures CanRun(from, to) <==>
      match to
      case Pending => false
      case Dispatched => from.Pending? || from.Recovering?
      case Running => from.Dispatched? || from.Verifying?
      case Verifying => from.Running?
      case Interrupted => from.Dispatched? || from.Running? || from.Verifying?
      case Recovering => from.Interrupted?
      case Succeeded => from.Verifying?
      case Failed => from.Interrupted? || from.Recovering?
      case Cancelled => !from.Succeeded? && !from.Failed? && !from.Cancelled?
  {
  }

  /** And that of tasks. */
  lemma TaskPredecessors(from: TaskStatus, to: TaskStatus)
    ensures CanTask(from, to) <==>
      match to
      case Created => false
      case Queued => from.Created? || from.NeedsAttention?
      case Running => from.Queued?
      case NeedsAttention => from.Running?
      case AwaitingApproval => from.Running?
      case Approved => from.AwaitingApproval? || from.PrFailed?
      case PrCreated => from.Approved?
      case PrFailed => from.Approved?
      case Resolved => from.PrCreated?
      case Rejected => from.AwaitingApproval?
      case Failed => from.Running?
      case Cancelled =>
        !from.PrCreated? && !from.Resolved? && !from.Rejected? && !from.Failed? && !from.Cancelled?
  {
  }

  /** And that of attempts: nothing comes after the end of one. */
  lemma AttemptPredecessors(from: AttemptStatus, to: AttemptStatus)
    ensures CanAttempt(from, to) <==>
      match to
      case Claimed => false
      case Running => from.Claimed?
      case Succeeded => from.Running?
      case Failed => from.Claimed? || from.Running?
      case Crashed => from.Running?
      case TimedOut => from.Running?
      case LeaseExpired => from.Claimed? || from.Running?
  {
  }

  /** A status is terminal when its row of the table is empty. */
  predicate RunTerminal(s: RunStatus)
    ensures RunTerminal(s) <==> forall to :: !CanRun(s, to)
  {
    assert CanRun(s, RunStatus.Cancelled) || s.Succeeded? || s.Failed? || s.Cancelled?;
    s.Succeeded? || s.Failed? || s.Cancelled?
  }

  /** `path` is a walk along the run table that starts at `from`. */
  predicate RunWalk(from: RunStatus, path: seq<RunStatus>) {
    && (path != [] ==> CanRun(from, path[0]))
    && (forall k :: 1 <= k < |path| ==> CanRun(path[k - 1], path[k]))
  }

  predicate TaskWalk(from: TaskStatus, path: seq<TaskStatus>) {
    && (path != [] ==> CanTask(from, path[0]))
    && (forall k :: 1 <= k < |path| ==> CanTask(path[k - 1], path[k]))
  }

  function EndOf<S>(from: S, path: seq<S>): S { if path == [] then from else path[|path| - 1] }

  /** Some walk along the run table leads from one status to the other. */
  ghost predicate RunReaches(from: RunStatus, to: RunStatus) {
    exists path :: RunWalk(from, path) && EndOf(from, path) == to
  }

  ghost predicate TaskReaches(from: TaskStatus, to: TaskStatus) {
    exists path :: TaskWalk(from, path) && EndOf(from, path) == to
  }
}
