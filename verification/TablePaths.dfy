/**
 Every committed change is a path through the transition tables, although some transactions write
 statuses without asking the tables.
 */
module TablePaths {
  import opened Wrappers
  import opened Rows
  import opened StateMachine
  import opened EventLog
  import opened RunProtocol
  import opened RunSystem
  import opened RunInvariant
  import opened JointProof
  import opened LogProof
  import opened RunTheorems
  import opened RunMoves
  import opened Fencing

  predicate Committable(from: RunStatus, to: RunStatus) {
    || from == to
    || (from.Dispatched? && to.Running?)
    || (from.Running? && (to.Succeeded? || to.Failed? || to.Interrupted? || to.Dispatched?))
    || (from.Interrupted? && to.Dispatched?)
    || (!RunTerminal(from) && to.Cancelled?)
  }

  /** The statuses a run passes through between two committed ones. */
  function RunPath(from: RunStatus, to: RunStatus): (path: seq<RunStatus>)
    requires Committable(from, to)
    ensures RunWalk(from, path) && EndOf(from, path) == to
  {
    if from == to then []
    else if from.Running? && to.Succeeded? then [RunStatus.Verifying, RunStatus.Succeeded]
    else if from.Running? && to.Failed? then [RunStatus.Interrupted, RunStatus.Failed]
    else if from.Running? && to.Dispatched? then [RunStatus.Interrupted, RunStatus.Recovering, RunStatus.Dispatched]
    else if from.Interrupted? && to.Dispatched? then [RunStatus.Recovering, RunStatus.Dispatched]
    else [to]
  }

  /** The committed changes of a task. */
  predicate TaskMoves(from: TaskStatus, to: TaskStatus) {
    || from == to
    || (from.Queued? && (to.Running? || to.Cancelled?))
    || (from.Running? && (to.AwaitingApproval? || to.NeedsAttention? || to.Failed? || to.Cancelled?))
    || (from.NeedsAttention? && (to.Queued? || to.Cancelled?))
    || (from.AwaitingApproval? && (to.Approved? || to.Rejected? || to.Resolved?))
    || (from.Approved? && (to.PrCreated? || to.PrFailed?))
    || (from.PrFailed? && to.Approved?)
  }

  /** Approving a patch-only task skips two statuses of the table; every other change is one edge. */
  function TaskPath(from: TaskStatus, to: TaskStatus): (path: seq<TaskStatus>)
    requires TaskMoves(from, to)
    ensures TaskWalk(from, path) && EndOf(from, path) == to
  {
    if from == to then []
    else if from.AwaitingApproval? && to.Resolved? then [TaskStatus.Approved, TaskStatus.PrCreated, TaskStatus.Resolved]
    else [to]
  }

  lemma StepMovesTask(d: Db, now: int, ttl: nat, op: Op)
    requires JointOk(d)
    ensures TaskMoves(d.task.status, Apply(d, now, ttl, op).task.status)
  {
    match op
    case Fail(_, _, _) => FailureStep(d, now, ttl, op);
    case Expire(_) => FailureStep(d, now, ttl, op);
    case Succeed(i, outcome) => if AttemptRunning(d, i) { SucceedCommits(d, now, d.run, i, outcome); }
    case _ =>
  }

  /** In every reachable state, each step moves run, task and attempts along their tables. */
  lemma EveryStepFollowsTheTables(s: Sys, op: Op)
    requires Reachable(s)
    ensures var e := Next(s, op).d;
      && RunReaches(s.d.run.status, e.run.status)
      && TaskReaches(s.d.task.status, e.task.status)
      && |s.d.attempts| <= |e.attempts|
      && (forall i :: 0 <= i < |s.d.attempts| ==>
            || e.attempts[i].status == s.d.attempts[i].status
            || CanAttempt(s.d.attempts[i].status, e.attempts[i].status))
  {
    EveryRunKeepsInv(s);
    StepMoves(s.d, s.now, s.ttl, op);
    assert RunWalk(s.d.run.status, RunPath(s.d.run.status, Next(s, op).d.run.status));
    StepMovesTask(s.d, s.now, s.ttl, op);
    assert TaskWalk(s.d.task.status, TaskPath(s.d.task.status, Next(s, op).d.task.status));
    StepOfAttempts(s.d, s.now, s.ttl, op);
  }

  /** The log tells the whole story: its status events chain from creation to the current status. */
  lemma LogTellsTheRun(s: Sys)
    requires Reachable(s)
    ensures Gapless(s.d.log)
    ensures StatusTrail(CreationStatus(s.d.run.cfg), s.d.log.rows) == Some(s.d.run.status)
  {
    EveryRunKeepsInv(s);
  }
}
