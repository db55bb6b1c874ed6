/** Which transactions commit more than one edge of the transition tables at a time. */
module TableEdges {
  import opened Wrappers
  import opened Rows
  import opened StateMachine
  import opened PolicyEngine
  import opened RunProtocol
  import opened DeliveryRows
  import opened RunSystem
  import opened RunInvariant
  import opened JointProof
  import opened LogProof
  import opened RunTheorems

  /** Nothing changes, or along one edge of its table. */
  predicate RunStaysOrSteps(d: Db, e: Db) { e.run.status == d.run.status || CanRun(d.run.status, e.run.status) }

  predicate TaskStaysOrSteps(d: Db, e: Db) { e.task.status == d.task.status || CanTask(d.task.status, e.task.status) }

  /** What stops the policy before it decides: usage that is not known, or a budget or deadline that is up. */
  predicate Stopped(d: Db, now: int) {
    d.run.cfg.snapshot && (Unresolved(d) || Exhausted(ChargeActive(d.run, now), now))
  }

  /** The backoff that goes with a decision would use up what is left of the time budget. */
  predicate BackoffSpends(d: Db, now: int, backoffMs: nat) {
    d.run.cfg.snapshot && ChargeActive(d.run, now).usedSeconds + CeilSeconds(backoffMs) >= d.run.cfg.budgetSeconds
  }

  /** The policy sends the run out again or gives it up, instead of waiting for a person. */
  predicate PolicyMovesOn(d: Db, now: int, no: pos, code: FailureCode) {
    var action := DecideFor(d, no, code);
    && !Stopped(d, now)
    && (action.Abort? || (Redispatches(action) && !BackoffSpends(d, now, BackoffMs(code, no, action))))
  }

  /** A run that may be sent out again by hand. */
  predicate MayResume(d: Db, now: int) {
    && d.run.status.Interrupted? && d.run.cfg.snapshot
    && d.run.usedTokens < d.run.cfg.budgetTokens && d.run.usedSeconds < d.run.cfg.budgetSeconds
    && |d.attempts| < d.run.cfg.maxAttempts && AllSettled(d.calls) && !DeadlinePassed(d.run, now)
    && !ContractRefuted(d.task)
  }

  predicate MayApprove(d: Db) {
    && d.approval.Some? && d.approval.value.status.Pending? && d.run.cfg.snapshot
    && d.approval.value.patchDigest.Some? && NewestDigest(d.patches) == d.approval.value.patchDigest
  }

  /** The transactions that pass through statuses in between, by their guards. */
  predicate PassesThrough(d: Db, now: int, op: Op) {
    match op
    case Succeed(i, _) => MaySucceed(d, now, i)
    case Fail(i, code, _) => AttemptRunning(d, i) && PolicyMovesOn(d, now, i + 1, code)
    case Expire(i) =>
      AttemptRunning(d, i) && d.attempts[i].leaseExpiresAt <= now && PolicyMovesOn(d, now, i + 1, WorkerLost)
    case ResumeRun => MayResume(d, now)
    case Deliver(dop) => dop.Approve? && d.run.cfg.delivery.PatchOnly? && MayApprove(d)
    case _ => false
  }

  /** `d2` is an interrupted run whose open interval is charged, or about to be. */
  predicate ChargedAlike(d: Db, d2: Db, now: int) {
    && d2.run.cfg == d.run.cfg && d2.calls == d.calls
    && (d.run.cfg.snapshot ==>
          && d2.run.usedTokens == d.run.usedTokens
          && ChargeActive(d2.run, now).usedSeconds == ChargeActive(d.run, now).usedSeconds)
  }

  /** The policy moved the run on exactly if its guards say so. */
  ghost predicate EndsAs(d: Db, e: Db, now: int, no: pos, code: FailureCode) {
    if PolicyMovesOn(d, now, no, code) then e.run.status.Dispatched? || e.run.status.Failed? else e.run.status.Interrupted?
  }

  lemma PolicyEnds(d: Db, d2: Db, now: int, i: nat, code: FailureCode)
    requires ChargedAlike(d, d2, now) && d2.run.status.Interrupted?
    ensures EndsAs(d, PolicyResult(d2, now, i, i + 1, code), now, i + 1, code)
  {
  }

  /** A transaction moves along single edges exactly if it passes through no status. */
  ghost predicate EdgesTold(d: Db, e: Db, now: int, op: Op) {
    (RunStaysOrSteps(d, e) && TaskStaysOrSteps(d, e)) <==> !PassesThrough(d, now, op)
  }

  lemma ExtrasChargeAlike(d: Db, now: int, i: nat, outcome: Outcome)
    ensures ChargedAlike(d, PersistExtras(d, now, d.run, i, outcome), now)
    ensures PersistExtras(d, now, d.run, i, outcome).attempts == d.attempts
  {
  }

  lemma FailEndsAs(d: Db, now: int, i: nat, code: FailureCode, outcome: Outcome)
    requires Executing(d, i)
    ensures EndsAs(d, FailTx(d, now, d.run, i, code, outcome).GetOr(d), now, i + 1, code)
  {
    FailCommits(d, now, d.run, i, code, outcome);
    ExtrasChargeAlike(d, now, i, outcome);
    PolicyEnds(d, Ended(PersistExtras(d, now, d.run, i, outcome), now, i, AttemptStatus.Failed, Some(code)), now, i, code);
  }

  lemma ExpireEndsAs(d: Db, now: int, i: nat)
    requires Executing(d, i) && d.attempts[i].leaseExpiresAt <= now
    ensures EndsAs(d, ExpireTx(d, now, d.run, i).GetOr(d), now, i + 1, WorkerLost)
  {
    ExpireCommits(d, now, d.run, i);
    PolicyEnds(d, Ended(d, now, i, AttemptStatus.LeaseExpired, Some(WorkerLost)), now, i, WorkerLost);
  }

  lemma EndTells(d: Db, e: Db, now: int, op: Op)
    requires op.Fail? || (op.Expire? && AttemptRunning(d, op.attempt) && d.attempts[op.attempt].leaseExpiresAt <= now)
    ensures FailureEnd(d, e, op) && EndsAs(d, e, now, op.attempt + 1, if op.Fail? then op.code else WorkerLost)
      ==> EdgesTold(d, e, now, op)
  {
  }

  lemma FailEdges(d: Db, now: int, ttl: nat, i: nat, code: FailureCode, outcome: Outcome)
    requires JointOk(d)
    ensures EdgesTold(d, Apply(d, now, ttl, Fail(i, code, outcome)), now, Fail(i, code, outcome))
  {
    if AttemptRunning(d, i) {
      FailEnds(d, now, i, code, outcome);
      FailEndsAs(d, now, i, code, outcome);
      EndTells(d, Apply(d, now, ttl, Fail(i, code, outcome)), now, Fail(i, code, outcome));
    }
  }

  lemma ExpireEdges(d: Db, now: int, ttl: nat, i: nat)
    requires JointOk(d)
    ensures EdgesTold(d, Apply(d, now, ttl, Expire(i)), now, Expire(i))
  {
    if AttemptRunning(d, i) && d.attempts[i].leaseExpiresAt <= now {
      ExpireEnds(d, now, i);
      ExpireEndsAs(d, now, i);
      EndTells(d, Apply(d, now, ttl, Expire(i)), now, Expire(i));
    }
  }

  lemma SucceedEdges(d: Db, now: int, ttl: nat, i: nat, outcome: Outcome)
    requires JointOk(d)
    ensures EdgesTold(d, Apply(d, now, ttl, Succeed(i, outcome)), now, Succeed(i, outcome))
  {
    if AttemptRunning(d, i) { SucceedCommits(d, now, d.run, i, outcome); }
  }

  lemma OtherEdges(d: Db, now: int, ttl: nat, op: Op)
    requires JointOk(d) && !op.Fail? && !op.Expire? && !op.Succeed? && !op.Deliver?
    ensures EdgesTold(d, Apply(d, now, ttl, op), now, op)
  {
  }

  lemma DeliveryEdges(d: Db, now: int, dop: DeliveryOp)
    requires JointOk(d)
    ensures EdgesTold(d, DeliveryStep(d, now, dop), now, Op.Deliver(dop))
  {
  }

  /**
   In every reachable state a transaction leaves run and task where they are or moves each along one
   edge of its table, except for exactly these: a success report that is accepted, a failure or
   expiry after which the policy moves on, a resume that is accepted, and the approval of a patch.
   */
  lemma SingleEdges(s: Sys, op: Op)
    requires Reachable(s)
    ensures var e := Next(s, op).d;
      (RunStaysOrSteps(s.d, e) && TaskStaysOrSteps(s.d, e)) <==> !PassesThrough(s.d, s.now, op)
  {
    EveryRunKeepsInv(s);
    match op
    case Fail(i, code, outcome) => FailEdges(s.d, s.now, s.ttl, i, code, outcome);
    case Expire(i) => ExpireEdges(s.d, s.now, s.ttl, i);
    case Succeed(i, outcome) => SucceedEdges(s.d, s.now, s.ttl, i, outcome);
    case Deliver(dop) => DeliveryEdges(s.d, s.now, dop);
    case _ => OtherEdges(s.d, s.now, s.ttl, op);
  }

  // ---- It happens ----

  lemma StartReaches(cfg: Config, now: int, ttl: nat, ops: seq<Op>)
    requires ValidConfig(cfg)
    ensures Reachable(Exec(Start(cfg, now, ttl), ops))
  {
  }

  /** The first attempt of a new run, once it is claimed. */
  lemma FirstClaim(cfg: Config, now: int, ttl: nat)
    requires ValidConfig(cfg) && cfg.snapshot
    ensures var s := Next(Start(cfg, now, ttl), Claim(1, 7));
      && s.now == now && s.ttl == ttl && s.d.approval.None? && s.d.calls == [] && s.d.patches == []
      && s.d.run == Start(cfg, now, ttl).d.run.(status := RunStatus.Running, activeStartedAt := Some(now))
      && s.d.task.status.Running? && s.d.attempts == [Attempt(1, 7, AttemptStatus.Running, None, now + ttl)]
  {
  }

  /** Claimed, paused by its user and resumed: INTERRUPTED becomes DISPATCHED, which is no edge. */
  lemma ResumeIsNoEdge(cfg: Config, now: int, ttl: nat)
    requires ValidConfig(cfg) && cfg.snapshot && cfg.maxAttempts >= 2 && cfg.deadlineAt.None? && ttl >= 1
    ensures var s := Exec(Start(cfg, now, ttl), [Claim(1, 7), PauseRun(0, 7, "PAUSED_BY_USER", "")]);
      && Reachable(s) && s.d.run.status.Interrupted? && Next(s, Op.ResumeRun).d.run.status.Dispatched?
      && !CanRun(RunStatus.Interrupted, RunStatus.Dispatched)
  {
    FirstClaim(cfg, now, ttl);
    StartReaches(cfg, now, ttl, [Claim(1, 7), PauseRun(0, 7, "PAUSED_BY_USER", "")]);
    ExecTwo(Start(cfg, now, ttl), Claim(1, 7), PauseRun(0, 7, "PAUSED_BY_USER", ""));
    PausedMayResume(Next(Start(cfg, now, ttl), Claim(1, 7)));
  }

  lemma PausedMayResume(s: Sys)
    requires s.d.run.cfg.snapshot && s.d.run.cfg.maxAttempts >= 2 && s.d.run.cfg.deadlineAt.None?
    requires s.d.run.status.Running? && s.d.run.activeStartedAt == Some(s.now)
    requires s.d.run.usedTokens < s.d.run.cfg.budgetTokens && s.d.run.usedSeconds < s.d.run.cfg.budgetSeconds
    requires s.d.calls == [] && |s.d.attempts| == 1 && s.d.attempts[0].status.Running?
    requires s.d.attempts[0].leaseToken == 7 && s.d.attempts[0].leaseExpiresAt > s.now
    ensures var e := Next(s, PauseRun(0, 7, "PAUSED_BY_USER", ""));
      e.d.run.status.Interrupted? && MayResume(e.d, e.now) && Next(e, Op.ResumeRun).d.run.status.Dispatched?
  {
    ResumeDispatches(Next(s, PauseRun(0, 7, "PAUSED_BY_USER", "")));
  }

  lemma ResumeDispatches(s: Sys)
    ensures MayResume(s.d, s.now) ==> Next(s, Op.ResumeRun).d.run.status.Dispatched?
  {
  }

  /** A patch-only task that is approved: AWAITING_APPROVAL becomes RESOLVED, which is no edge. */
  lemma ApprovalIsNoEdge(cfg: Config, now: int, ttl: nat)
    requires ValidConfig(cfg) && cfg.snapshot && cfg.delivery.PatchOnly? && ttl >= 1
    ensures var s := Exec(Start(cfg, now, ttl), [Claim(1, 7), Succeed(0, Outcome("diff", None, None))]);
      && Reachable(s) && s.d.task.status.AwaitingApproval?
      && Next(s, Op.Deliver(Approve)).d.task.status.Resolved?
      && !CanTask(TaskStatus.AwaitingApproval, TaskStatus.Resolved)
  {
    FirstClaim(cfg, now, ttl);
    StartReaches(cfg, now, ttl, [Claim(1, 7), Succeed(0, Outcome("diff", None, None))]);
    ExecTwo(Start(cfg, now, ttl), Claim(1, 7), Succeed(0, Outcome("diff", None, None)));
    FinishedMayResolve(Next(Start(cfg, now, ttl), Claim(1, 7)));
  }

  lemma FinishedMayResolve(s: Sys)
    requires s.d.run.cfg.snapshot && s.d.run.cfg.delivery.PatchOnly? && s.d.approval.None? && s.d.calls == []
    requires s.d.run.status.Running? && s.d.task.status.Running? && |s.d.attempts| == 1
    requires s.d.attempts[0].status.Running? && s.d.attempts[0].leaseExpiresAt > s.now
    ensures var e := Next(s, Succeed(0, Outcome("diff", None, None)));
      e.d.task.status.AwaitingApproval? && Next(e, Op.Deliver(Approve)).d.task.status.Resolved?
  {
    SucceedCommits(s.d, s.now, s.d.run, 0, Outcome("diff", None, None));
    ApprovalResolves(Next(s, Succeed(0, Outcome("diff", None, None))));
  }

  lemma ApprovalResolves(s: Sys)
    ensures s.d.run.cfg.delivery.PatchOnly? && MayApprove(s.d) ==>
      Next(s, Op.Deliver(Approve)).d.task.status.Resolved?
  {
  }
}
