/** Every transaction keeps run, attempts, task and approval together. */
module JointProof {
  import opened Wrappers
  import opened Rows
  import opened PolicyEngine
  import opened EventLog
  import opened RunProtocol
  import opened DeliveryRows
  import opened RunSystem
  import opened RunInvariant

  lemma {:induction false} LatestIsCount(attempts: seq<Attempt>)
    requires forall i :: 0 <= i < |attempts| ==> attempts[i].no == i + 1
    ensures LatestNo(attempts) == |attempts|
  {
    if attempts != [] {
      LatestIsCount(attempts[..|attempts| - 1]);
    }
  }

  /** The backoff is charged first, and only a snapshot run can be stopped by it. */
  function WithBackoff(d: Db, backoffMs: nat): Db {
    if d.run.cfg.snapshot
    then d.(run := d.run.(usedSeconds := d.run.usedSeconds + CeilSeconds(backoffMs), phase := "QUEUED"))
    else d
  }

  function RecoveryLog(log: Log, action: PolicyAction, checkpoint: Option<nat>, no: pos): Log {
    Emit(Emit(Emit(log, StatusChange(RunStatus.Interrupted, RunStatus.Recovering)),
              RecoveryAction(action, checkpoint, no)),
         StatusChange(RunStatus.Recovering, RunStatus.Dispatched))
  }

  /** What a redispatch leaves behind, without the guarded steps in between. */
  function Redispatched(d: Db, now: int, no: pos, action: PolicyAction, backoffMs: nat): Db {
    var d1 := WithBackoff(d, backoffMs);
    var checkpoint := if action.Resume? then LatestCheckpoint(d) else None;
    if d.run.cfg.snapshot && d1.run.usedSeconds >= d.run.cfg.budgetSeconds
    then Attention(d1, Said("BUDGET_EXHAUSTED"))
    else d1.(run := d1.run.(status := RunStatus.Dispatched),
             outbox := d.outbox + [Message(BuildCommand(d1.run, no + 1, checkpoint), now + backoffMs)],
             log := RecoveryLog(d.log, action, checkpoint, no + 1))
  }

  function Aborted(d: Db): Db {
    d.(run := d.run.(phase := "FAILED", activeStartedAt := None, status := RunStatus.Failed),
       task := d.task.(status := TaskStatus.Failed),
       log := Emit(d.log, StatusChange(RunStatus.Interrupted, RunStatus.Failed)))
  }

  /** The policy on an interrupted run, as one case distinction. */
  function PolicyResult(d: Db, now: int, i: nat, no: pos, code: FailureCode): Db {
    var d0 := IntervalClosed(d, now);
    if d.run.cfg.snapshot && (Unresolved(d0) || Exhausted(d0.run, now)) then
      Attention(d0, Said(if Unresolved(d0) then "MODEL_USAGE_UNKNOWN" else "BUDGET_EXHAUSTED"))
    else
      var action := DecideFor(d0, no, code);
      var d1 := d0.(decisions := d0.decisions + [Decision(i, code, action)]);
      if Redispatches(action) then Redispatched(d1, now, no, action, BackoffMs(code, no, action))
      else if action.Abort? then Aborted(d1)
      else Attention(d1, FailedWith(code))
  }

  /** From an interrupted run the two guarded transitions of a redispatch never throw. */
  lemma RedispatchCommits(d: Db, now: int, i: nat, no: pos, action: PolicyAction, backoffMs: nat)
    requires d.run.status.Interrupted?
    ensures Redispatch(d, now, i, no, action, backoffMs) == Some(Redispatched(d, now, no, action, backoffMs))
  {
  }

  lemma PolicyCommits(d: Db, now: int, i: nat, no: pos, code: FailureCode)
    requires d.run.status.Interrupted? && d.task.status.Running?
    ensures ApplyPolicy(d, now, i, no, code) == Some(PolicyResult(d, now, i, no, code))
  {
    var d0 := IntervalClosed(d, now);
    var action := DecideFor(d0, no, code);
    var d1 := d0.(decisions := d0.decisions + [Decision(i, code, action)]);
    RedispatchCommits(d1, now, i, no, action, BackoffMs(code, no, action));
  }

  /** The rows that the policy leaves alone, and the three ways it can end. */
  ghost predicate PolicyShape(d: Db, e: Db, no: pos) {
    && e == d.(run := e.run, task := e.task, outbox := e.outbox, decisions := e.decisions, log := e.log)
    && e.run.cfg == d.run.cfg && e.run.usedTokens == d.run.usedTokens
    && (|| (e.run.status.Interrupted? && e.task.status.NeedsAttention? && e.outbox == d.outbox)
        || (e.run.status.Failed? && e.task.status.Failed? && e.outbox == d.outbox)
        || (e.run.status.Dispatched? && e.task == d.task && SentAgain(d, e, no)))
  }

  /** One more command, for the next attempt. */
  ghost predicate SentAgain(d: Db, e: Db, no: pos) {
    && no < d.run.cfg.maxAttempts
    && |e.outbox| == |d.outbox| + 1
    && e.outbox[..|d.outbox|] == d.outbox
    && e.outbox[|d.outbox|].command.attemptNo == no + 1
  }

  /** What the policy adds to the log of an interrupted run, by the status it leaves. */
  ghost predicate PolicyLogged(log: Log, e: Db, no: pos) {
    match e.run.status
    case Interrupted => e.log == log
    case Failed => e.log == Emit(log, StatusChange(RunStatus.Interrupted, RunStatus.Failed))
    case Dispatched =>
      && e.decisions != [] && e.outbox != []
      && e.log == RecoveryLog(log, e.decisions[|e.decisions| - 1].action,
                              e.outbox[|e.outbox| - 1].command.checkpoint, no + 1)
    case _ => false
  }

  lemma RedispatchedHasShape(d: Db, now: int, no: pos, action: PolicyAction, backoffMs: nat)
    requires d.run.status.Interrupted? && d.task.status.Running? && no < d.run.cfg.maxAttempts
    ensures PolicyShape(d, Redispatched(d, now, no, action, backoffMs), no)
  {
  }

  lemma PolicyLogs(d: Db, now: int, i: nat, no: pos, code: FailureCode)
    requires d.run.status.Interrupted?
    ensures PolicyLogged(d.log, PolicyResult(d, now, i, no, code), no)
  {
    var d0 := IntervalClosed(d, now);
    var action := DecideFor(d0, no, code);
    if Redispatches(action) {
      RedispatchedLogs(d0.(decisions := d0.decisions + [Decision(i, code, action)]), now, no, action,
                       BackoffMs(code, no, action));
    }
  }

  lemma RedispatchedLogs(d: Db, now: int, no: pos, action: PolicyAction, backoffMs: nat)
    requires d.run.status.Interrupted? && d.decisions != [] && d.decisions[|d.decisions| - 1].action == action
    ensures PolicyLogged(d.log, Redispatched(d, now, no, action, backoffMs), no)
  {
  }

  lemma PolicyHasShape(d: Db, now: int, i: nat, no: pos, code: FailureCode)
    requires d.run.status.Interrupted? && d.task.status.Running?
    ensures PolicyShape(d, PolicyResult(d, now, i, no, code), no)
  {
    var d0 := IntervalClosed(d, now);
    var action := DecideFor(d0, no, code);
    var d1 := d0.(decisions := d0.decisions + [Decision(i, code, action)]);
    AtLimitNeverRedispatches(code, no, d.run.cfg.maxAttempts);
    if Redispatches(action) {
      RedispatchedHasShape(d1, now, no, action, BackoffMs(code, no, action));
    }
  }

  predicate MaySucceed(d: Db, now: int, i: nat) {
    && AttemptRunning(d, i) && d.attempts[i].leaseExpiresAt > now
    && !(d.run.cfg.snapshot && Unresolved(d))
  }

  /** A successful report, without the guarded steps in between. */
  function Finished(d: Db, now: int, pre: Run, i: nat, outcome: Outcome): Db
    requires i < |d.attempts|
  {
    var d1 := PersistExtras(EndAttempt(d, i, AttemptStatus.Succeeded, d.attempts[i].failureCode), now, pre, i, outcome);
    d1.(run := d1.run.(status := RunStatus.Succeeded, phase := "AWAITING_APPROVAL"),
        task := d.task.(status := TaskStatus.AwaitingApproval),
        approval := Some(Approval(ApprovalStatus.Pending,
                                  if outcome.patch == "" then None else Some(Sha256(outcome.patch)), None)),
        log := Emit(Emit(Emit(d.log, StatusChange(RunStatus.Running, RunStatus.Verifying)),
                         StatusChange(RunStatus.Verifying, RunStatus.Succeeded)), ApprovalRequested))
  }

  lemma SucceedCommits(d: Db, now: int, pre: Run, i: nat, outcome: Outcome)
    requires AttemptRunning(d, i) && d.run.status.Running? && d.task.status.Running? && d.approval.None?
    ensures SucceedTx(d, now, pre, i, outcome)
         == if MaySucceed(d, now, i) then Some(Finished(d, now, pre, i, outcome)) else None
  {
  }

  lemma ClaimKeepsJoint(d: Db, now: int, ttl: nat, no: pos, token: nat)
    requires JointOk(d)
    ensures JointOk(Apply(d, now, ttl, Claim(no, token)))
  {
    LatestIsCount(d.attempts);
  }

  /** Attempt `i` of `d` is over in `d2`, the run is interrupted, and the rest stays coupled. */
  ghost predicate Interrupted(d: Db, d2: Db, i: nat) {
    && AttemptRunning(d, i)
    && d2.run.cfg == d.run.cfg && d2.run.status.Interrupted?
    && |d2.attempts| == |d.attempts| && !d2.attempts[i].status.Running? && !d2.attempts[i].status.Claimed?
    && d2 == d.(run := d2.run, attempts := d.attempts[i := d2.attempts[i]], patches := d2.patches, log := d2.log)
    && d2.attempts[i].no == d.attempts[i].no && d2.attempts[i].leaseToken == d.attempts[i].leaseToken
  }

  lemma ShapeKeepsJoint(d: Db, d2: Db, e: Db, i: nat, no: pos)
    requires JointOk(d)
    ensures Interrupted(d, d2, i) && PolicyShape(d2, e, no) ==> JointOk(e)
  {
  }

  lemma FailKeepsJoint(d: Db, now: int, ttl: nat, i: nat, code: FailureCode, outcome: Outcome)
    requires JointOk(d)
    ensures JointOk(Apply(d, now, ttl, Fail(i, code, outcome)))
  {
    if AttemptRunning(d, i) {
      var d1 := PersistExtras(EndAttempt(d, i, AttemptStatus.Failed, Some(code)), now, d.run, i, outcome);
      var d2 := Interrupt(d1, d.run).value;
      PolicyCommits(d2, now, i, d.attempts[i].no, code);
      PolicyHasShape(d2, now, i, d.attempts[i].no, code);
      ShapeKeepsJoint(d, d2, PolicyResult(d2, now, i, d.attempts[i].no, code), i, d.attempts[i].no);
    }
  }

  lemma ExpireKeepsJoint(d: Db, now: int, ttl: nat, i: nat)
    requires JointOk(d)
    ensures JointOk(Apply(d, now, ttl, Expire(i)))
  {
    if AttemptRunning(d, i) {
      var d1 := EndAttempt(d, i, AttemptStatus.LeaseExpired, Some(WorkerLost));
      var d2 := Interrupt(d1, d.run).value;
      PolicyCommits(d2, now, i, d.attempts[i].no, WorkerLost);
      PolicyHasShape(d2, now, i, d.attempts[i].no, WorkerLost);
      ShapeKeepsJoint(d, d2, PolicyResult(d2, now, i, d.attempts[i].no, WorkerLost), i, d.attempts[i].no);
    }
  }

  lemma SucceedKeepsJoint(d: Db, now: int, ttl: nat, i: nat, outcome: Outcome)
    requires JointOk(d)
    ensures JointOk(Apply(d, now, ttl, Succeed(i, outcome)))
  {
    if MaySucceed(d, now, i) {
      SucceedCommits(d, now, d.run, i, outcome);
    }
  }

  lemma PauseKeepsJoint(d: Db, now: int, ttl: nat, i: nat, token: nat, reason: string, patch: string)
    requires JointOk(d)
    ensures JointOk(Apply(d, now, ttl, PauseRun(i, token, reason, patch)))
  {
  }

  lemma CancelKeepsJoint(d: Db, now: int, ttl: nat)
    requires JointOk(d)
    ensures JointOk(Apply(d, now, ttl, CancelRun))
  {
  }

  lemma StepKeepsJoint(d: Db, now: int, ttl: nat, op: Op)
    requires JointOk(d)
    ensures JointOk(Apply(d, now, ttl, op))
  {
    match op
    case Claim(no, token) => ClaimKeepsJoint(d, now, ttl, no, token);
    case Succeed(i, outcome) => SucceedKeepsJoint(d, now, ttl, i, outcome);
    case Fail(i, code, outcome) => FailKeepsJoint(d, now, ttl, i, code, outcome);
    case Expire(i) => ExpireKeepsJoint(d, now, ttl, i);
    case PauseRun(i, token, reason, patch) => PauseKeepsJoint(d, now, ttl, i, token, reason, patch);
    case CancelRun => CancelKeepsJoint(d, now, ttl);
    case Deliver(dop) => DeliveryStepKeepsCoupling(d, now, dop);
    case _ =>
  }
}
