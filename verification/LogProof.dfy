/** Every transaction keeps the event log gapless and its status trail true, and the outbox numbered. */
module LogProof {
  import opened Wrappers
  import opened Rows
  import opened EventLog
  import opened RunProtocol
  import opened DeliveryRows
  import opened RunSystem
  import opened RunInvariant
  import opened JointProof

  lemma EmitStatus(cfg: Config, log: Log, from: RunStatus, to: RunStatus)
    requires Tells(cfg, log, from) && ReportedEdge(from, to)
    ensures Tells(cfg, Emit(log, StatusChange(from, to)), to)
  {
    EmitKeepsGapless(log, StatusChange(from, to));
    TrailOfAppend(CreationStatus(cfg), log, Synthetic(log.last + 1), StatusChange(from, to));
  }

  lemma EmitOther(cfg: Config, log: Log, body: EventBody, status: RunStatus)
    requires Tells(cfg, log, status) && !body.StatusChange?
    ensures Tells(cfg, Emit(log, body), status)
  {
    EmitKeepsGapless(log, body);
    TrailOfAppend(CreationStatus(cfg), log, Synthetic(log.last + 1), body);
  }

  lemma RecoveryLogTells(cfg: Config, log: Log, action: PolicyAction, checkpoint: Option<nat>, no: pos)
    requires Tells(cfg, log, RunStatus.Interrupted)
    ensures Tells(cfg, RecoveryLog(log, action, checkpoint, no), RunStatus.Dispatched)
  {
    EmitStatus(cfg, log, RunStatus.Interrupted, RunStatus.Recovering);
    var log1 := Emit(log, StatusChange(RunStatus.Interrupted, RunStatus.Recovering));
    EmitOther(cfg, log1, EventBody.RecoveryAction(action, checkpoint, no), RunStatus.Recovering);
    var log2 := Emit(log1, EventBody.RecoveryAction(action, checkpoint, no));
    EmitStatus(cfg, log2, RunStatus.Recovering, RunStatus.Dispatched);
  }

  /** However the policy ends, the log it writes ends in the status it leaves. */
  lemma PolicyTells(cfg: Config, log: Log, e: Db, no: pos)
    requires Tells(cfg, log, RunStatus.Interrupted) && PolicyLogged(log, e, no)
    ensures Tells(cfg, e.log, e.run.status)
  {
    match e.run.status
    case Interrupted =>
    case Failed =>
      EmitStatus(cfg, log, RunStatus.Interrupted, RunStatus.Failed);
      assert Tells(cfg, e.log, RunStatus.Failed);
    case Dispatched =>
      RecoveryLogTells(cfg, log, e.decisions[|e.decisions| - 1].action,
                       e.outbox[|e.outbox| - 1].command.checkpoint, no + 1);
      assert Tells(cfg, e.log, RunStatus.Dispatched);
  }

  /** The rows of an attempt that ended, with its run interrupted and its extras stored. */
  function Ended(d: Db, now: int, i: nat, status: AttemptStatus, code: Option<FailureCode>): Db
    requires i < |d.attempts|
  {
    var d1 := EndAttempt(d, i, status, code);
    d1.(run := d1.run.(status := RunStatus.Interrupted),
        log := Emit(d.log, StatusChange(RunStatus.Running, RunStatus.Interrupted)))
  }

  /** Attempt `i` runs, and run and task with it. */
  predicate Executing(d: Db, i: nat) {
    AttemptRunning(d, i) && d.run.status.Running? && d.task.status.Running? && d.attempts[i].no == i + 1
  }

  /** A failure report always commits, if the run was seen running. */
  lemma FailCommits(d: Db, now: int, pre: Run, i: nat, code: FailureCode, outcome: Outcome)
    requires Executing(d, i) && pre.status.Running?
    ensures FailTx(d, now, pre, i, code, outcome)
         == Some(PolicyResult(Ended(PersistExtras(d, now, pre, i, outcome), now, i, AttemptStatus.Failed, Some(code)),
                              now, i, i + 1, code))
  {
    var d1 := PersistExtras(EndAttempt(d, i, AttemptStatus.Failed, Some(code)), now, pre, i, outcome);
    PolicyCommits(Interrupt(d1, pre).value, now, i, i + 1, code);
  }

  lemma ExpireCommits(d: Db, now: int, pre: Run, i: nat)
    requires Executing(d, i) && pre.status.Running? && d.attempts[i].leaseExpiresAt <= now
    ensures ExpireTx(d, now, pre, i)
         == Some(PolicyResult(Ended(d, now, i, AttemptStatus.LeaseExpired, Some(WorkerLost)), now, i, i + 1, WorkerLost))
  {
    var d1 := EndAttempt(d, i, AttemptStatus.LeaseExpired, Some(WorkerLost));
    PolicyCommits(Interrupt(d1, pre).value, now, i, i + 1, WorkerLost);
  }

  /** How a failure report or an expiry ends: the attempt is over, and the policy has acted. */
  ghost predicate FailureEnd(d: Db, e: Db, op: Op)
    requires op.Fail? || op.Expire?
  {
    var status := if op.Fail? then AttemptStatus.Failed else AttemptStatus.LeaseExpired;
    var code := if op.Fail? then op.code else WorkerLost;
    && AttemptRunning(d, op.attempt) && d.run.status.Running? && d.task.status.Running?
    && e.attempts == d.attempts[op.attempt := d.attempts[op.attempt].(status := status, failureCode := Some(code))]
    && e.patches == d.patches + (if op.Fail? && op.outcome.patch != "" then [Patch(op.attempt, op.outcome.patch)] else [])
    && e.job == d.job && e.approval == d.approval && e.checkpoints == d.checkpoints && d.outbox <= e.outbox
    && (|| (e.run.status.Interrupted? && e.task.status.NeedsAttention?)
        || (e.run.status.Failed? && e.task.status.Failed?)
        || (e.run.status.Dispatched? && e.task == d.task))
  }

  lemma ShapeEnds(d: Db, d0: Db, now: int, status: AttemptStatus, code: FailureCode, e: Db, op: Op)
    requires op.Fail? || op.Expire?
    requires AttemptRunning(d, op.attempt) && d.run.status.Running? && d.task.status.Running?
    requires status == (if op.Fail? then AttemptStatus.Failed else AttemptStatus.LeaseExpired)
    requires code == (if op.Fail? then op.code else WorkerLost)
    requires d0 == d.(run := d0.run, patches := d0.patches)
    requires d0.patches
          == d.patches + (if op.Fail? && op.outcome.patch != "" then [Patch(op.attempt, op.outcome.patch)] else [])
    ensures PolicyShape(Ended(d0, now, op.attempt, status, Some(code)), e, op.attempt + 1) ==> FailureEnd(d, e, op)
  {
  }

  lemma FailEnds(d: Db, now: int, i: nat, code: FailureCode, outcome: Outcome)
    requires Executing(d, i)
    ensures FailureEnd(d, FailTx(d, now, d.run, i, code, outcome).GetOr(d), Fail(i, code, outcome))
  {
    var d0 := PersistExtras(d, now, d.run, i, outcome);
    var d1 := Ended(d0, now, i, AttemptStatus.Failed, Some(code));
    FailCommits(d, now, d.run, i, code, outcome);
    PolicyHasShape(d1, now, i, i + 1, code);
    ShapeEnds(d, d0, now, AttemptStatus.Failed, code, PolicyResult(d1, now, i, i + 1, code), Fail(i, code, outcome));
  }

  lemma ExpireEnds(d: Db, now: int, i: nat)
    requires Executing(d, i) && d.attempts[i].leaseExpiresAt <= now
    ensures FailureEnd(d, ExpireTx(d, now, d.run, i).GetOr(d), Expire(i))
  {
    var d1 := Ended(d, now, i, AttemptStatus.LeaseExpired, Some(WorkerLost));
    ExpireCommits(d, now, d.run, i);
    PolicyHasShape(d1, now, i, i + 1, WorkerLost);
    ShapeEnds(d, d, now, AttemptStatus.LeaseExpired, WorkerLost, PolicyResult(d1, now, i, i + 1, WorkerLost), Expire(i));
  }

  /** A failure report or an expiry changes nothing, or ends its attempt. */
  lemma FailureStep(d: Db, now: int, ttl: nat, op: Op)
    requires JointOk(d) && (op.Fail? || op.Expire?)
    ensures var e := Apply(d, now, ttl, op); e == d || FailureEnd(d, e, op)
  {
    match op
    case Fail(i, code, outcome) => if AttemptRunning(d, i) { FailEnds(d, now, i, code, outcome); }
    case Expire(i) => if AttemptRunning(d, i) && d.attempts[i].leaseExpiresAt <= now { ExpireEnds(d, now, i); }
  }

  lemma ShapeKeepsOutbox(d: Db, d2: Db, e: Db, no: pos)
    requires d.run.status.Running? && |d.attempts| == no
    requires |d2.attempts| == no && d2.run.cfg == d.run.cfg && d2.outbox == d.outbox
    ensures OutboxOk(d) && PolicyShape(d2, e, no) ==> OutboxOk(e)
  {
    if OutboxOk(d) && PolicyShape(d2, e, no) && e.run.status.Dispatched? {
      forall k | 0 <= k < |e.outbox| ensures e.outbox[k].command.attemptNo == k + 1 {
        if k < |d.outbox| {
          assert e.outbox[k] == e.outbox[..|d.outbox|][k] == d.outbox[k];
        }
      }
    }
  }

  lemma EndedShapeKeepsOutbox(d: Db, now: int, i: nat, status: AttemptStatus, code: Option<FailureCode>, e: Db)
    requires i == |d.attempts| - 1 && d.run.status.Running?
    ensures OutboxOk(d) && PolicyShape(Ended(d, now, i, status, code), e, i + 1) ==> OutboxOk(e)
  {
    ShapeKeepsOutbox(d, Ended(d, now, i, status, code), e, i + 1);
  }

  lemma FailureKeepsOutbox(d: Db, now: int, i: nat, status: AttemptStatus, code: Option<FailureCode>, failure: FailureCode)
    requires i == |d.attempts| - 1 && d.run.status.Running? && d.task.status.Running?
    ensures OutboxOk(d) ==> OutboxOk(PolicyResult(Ended(d, now, i, status, code), now, i, i + 1, failure))
  {
    PolicyHasShape(Ended(d, now, i, status, code), now, i, i + 1, failure);
    EndedShapeKeepsOutbox(d, now, i, status, code,
                          PolicyResult(Ended(d, now, i, status, code), now, i, i + 1, failure));
  }

  lemma EndedKeepsLog(d: Db, now: int, i: nat, status: AttemptStatus, code: Option<FailureCode>, failure: FailureCode)
    requires AttemptRunning(d, i) && d.run.status.Running? && d.task.status.Running? && LogOk(d)
    ensures LogOk(PolicyResult(Ended(d, now, i, status, code), now, i, i + 1, failure))
  {
    var d2 := Ended(d, now, i, status, code);
    var e := PolicyResult(d2, now, i, i + 1, failure);
    PolicyHasShape(d2, now, i, i + 1, failure);
    PolicyLogs(d2, now, i, i + 1, failure);
    EmitStatus(d.run.cfg, d.log, RunStatus.Running, RunStatus.Interrupted);
    PolicyTells(d.run.cfg, d2.log, e, i + 1);
  }

  lemma ClaimKeepsLog(d: Db, now: int, ttl: nat, no: pos, token: nat)
    requires JointOk(d) && LogOk(d) && OutboxOk(d)
    ensures LogOk(Apply(d, now, ttl, Claim(no, token))) && OutboxOk(Apply(d, now, ttl, Claim(no, token)))
  {
    LatestIsCount(d.attempts);
    if d.run.status.Dispatched? {
      EmitStatus(d.run.cfg, d.log, RunStatus.Dispatched, RunStatus.Running);
    }
  }

  lemma SucceedKeepsLog(d: Db, now: int, ttl: nat, i: nat, outcome: Outcome)
    requires JointOk(d) && LogOk(d) && OutboxOk(d)
    ensures LogOk(Apply(d, now, ttl, Succeed(i, outcome))) && OutboxOk(Apply(d, now, ttl, Succeed(i, outcome)))
  {
    if MaySucceed(d, now, i) {
      SucceedCommits(d, now, d.run, i, outcome);
      EmitStatus(d.run.cfg, d.log, RunStatus.Running, RunStatus.Verifying);
      var log1 := Emit(d.log, StatusChange(RunStatus.Running, RunStatus.Verifying));
      EmitStatus(d.run.cfg, log1, RunStatus.Verifying, RunStatus.Succeeded);
      EmitOther(d.run.cfg, Emit(log1, StatusChange(RunStatus.Verifying, RunStatus.Succeeded)), ApprovalRequested,
                RunStatus.Succeeded);
    }
  }

  lemma ControlKeepsLog(d: Db, now: int, ttl: nat, op: Op)
    requires JointOk(d) && LogOk(d) && OutboxOk(d)
    requires op.PauseRun? || op.CancelRun? || op.ResumeRun?
    ensures LogOk(Apply(d, now, ttl, op)) && OutboxOk(Apply(d, now, ttl, op))
  {
    LatestIsCount(d.attempts);
    var e := Apply(d, now, ttl, op);
    if e != d {
      EmitStatus(d.run.cfg, d.log, d.run.status, e.run.status);
    }
  }

  lemma IngestTells(cfg: Config, log: Log, key: string, payload: string, status: RunStatus)
    requires Tells(cfg, log, status)
    ensures Tells(cfg, Ingest(log, key, payload), status)
  {
    IngestIsIdempotent(log, key, payload, payload);
    TrailOfAppend(CreationStatus(cfg), log, Worker(key), Runtime(payload));
  }

  /** What log and outbox are about, apart from the log itself, is the same before and after. */
  predicate SameDispatch(d: Db, e: Db) {
    && e.outbox == d.outbox && e.run.status == d.run.status && e.run.cfg == d.run.cfg
    && |e.attempts| == |d.attempts|
  }

  lemma SameDispatchKeepsLog(d: Db, e: Db)
    requires LogOk(d) && OutboxOk(d) && SameDispatch(d, e)
    ensures Tells(d.run.cfg, e.log, d.run.status) ==> LogOk(e) && OutboxOk(e)
  {
  }

  lemma PhaseKeepsLog(d: Db, now: int, i: nat, token: nat, phase: string)
    requires LogOk(d) && OutboxOk(d)
    ensures LogOk(SetPhase(d, now, i, token, phase)) && OutboxOk(SetPhase(d, now, i, token, phase))
  {
    EmitOther(d.run.cfg, d.log, PhaseChange(d.run.phase, phase), d.run.status);
    SameDispatchKeepsLog(d, SetPhase(d, now, i, token, phase));
  }

  lemma IngestKeepsLog(d: Db, key: string, payload: string)
    requires LogOk(d) && OutboxOk(d)
    ensures LogOk(d.(log := Ingest(d.log, key, payload))) && OutboxOk(d.(log := Ingest(d.log, key, payload)))
  {
    IngestTells(d.run.cfg, d.log, key, payload, d.run.status);
    SameDispatchKeepsLog(d, d.(log := Ingest(d.log, key, payload)));
  }

  lemma FailureKeepsLog(d: Db, now: int, ttl: nat, op: Op)
    requires JointOk(d) && LogOk(d) && OutboxOk(d)
    requires op.Fail? || op.Expire?
    ensures LogOk(Apply(d, now, ttl, op)) && OutboxOk(Apply(d, now, ttl, op))
  {
    match op
    case Fail(i, code, outcome) =>
      if AttemptRunning(d, i) {
        FailCommits(d, now, d.run, i, code, outcome);
        EndedKeepsLog(PersistExtras(d, now, d.run, i, outcome), now, i, AttemptStatus.Failed, Some(code), code);
        FailureKeepsOutbox(PersistExtras(d, now, d.run, i, outcome), now, i, AttemptStatus.Failed, Some(code), code);
      }
    case Expire(i) =>
      if AttemptRunning(d, i) && d.attempts[i].leaseExpiresAt <= now {
        ExpireCommits(d, now, d.run, i);
        EndedKeepsLog(d, now, i, AttemptStatus.LeaseExpired, Some(WorkerLost), WorkerLost);
        FailureKeepsOutbox(d, now, i, AttemptStatus.LeaseExpired, Some(WorkerLost), WorkerLost);
      }
  }

  predicate WritesLog(op: Op) {
    || op.Claim? || op.Succeed? || op.Fail? || op.Expire? || op.Deliver? || op.PauseRun? || op.CancelRun?
    || op.ResumeRun? || op.Phase? || op.IngestEvent?
  }

  lemma OtherKeepsDispatch(d: Db, now: int, ttl: nat, op: Op)
    requires !WritesLog(op)
    ensures Apply(d, now, ttl, op).log == d.log && SameDispatch(d, Apply(d, now, ttl, op))
  {
  }

  lemma StepKeepsLog(d: Db, now: int, ttl: nat, op: Op)
    requires JointOk(d) && LogOk(d) && OutboxOk(d)
    ensures LogOk(Apply(d, now, ttl, op)) && OutboxOk(Apply(d, now, ttl, op))
  {
    match op
    case Claim(no, token) => ClaimKeepsLog(d, now, ttl, no, token);
    case Succeed(i, outcome) => SucceedKeepsLog(d, now, ttl, i, outcome);
    case Fail(_, _, _) => FailureKeepsLog(d, now, ttl, op);
    case Expire(_) => FailureKeepsLog(d, now, ttl, op);
    case Deliver(dop) => DeliveryStepKeepsCoupling(d, now, dop);
    case PauseRun(_, _, _, _) => ControlKeepsLog(d, now, ttl, op);
    case CancelRun => ControlKeepsLog(d, now, ttl, op);
    case ResumeRun => ControlKeepsLog(d, now, ttl, op);
    case Phase(i, token, phase) => PhaseKeepsLog(d, now, i, token, phase);
    case IngestEvent(key, payload) => IngestKeepsLog(d, key, payload);
    case _ =>
      OtherKeepsDispatch(d, now, ttl, op);
      SameDispatchKeepsLog(d, Apply(d, now, ttl, op));
  }
}
