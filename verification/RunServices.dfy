/**
 The run services as they run: each method is one transaction that updates rows one after another
 and puts everything back when a guard throws.  Each is proved to commit exactly what the protocol
 says for the rows at lock time, however its steps are ordered inside.
 */
module RunServices {
  import opened Wrappers
  import opened Rows
  import opened PolicyEngine
  import opened EventLog
  import SM = StateMachine
  import P = RunProtocol
  import S = RunSystem
  import D = DeliveryRows

  datatype ClaimReply = Conflict | Duplicate | Granted(attempt: nat, leaseToken: nat)

  datatype DeliveryResult = Opened(url: string) | Failure(conflict: bool, message: string)

  class Database {
    var run: Run
    var task: Task
    var attempts: seq<Attempt>
    var calls: seq<Call>
    var outbox: seq<Message>
    var checkpoints: seq<Checkpoint>
    var patches: seq<Patch>
    var decisions: seq<Decision>
    var log: Log
    var approval: Option<Approval>
    var job: Option<Job>
    const ttl: nat

    function Rows(): Db
      reads this
    {
      Db(run, task, attempts, calls, outbox, checkpoints, patches, decisions, log, approval, job)
    }

    constructor (cfg: Config, now: int, ttl: nat)
      ensures Rows() == S.Created(cfg, now) && this.ttl == ttl
    {
      var d := S.Created(cfg, now);
      run, task, attempts, calls, outbox := d.run, d.task, d.attempts, d.calls, d.outbox;
      checkpoints, patches, decisions, log := d.checkpoints, d.patches, d.decisions, d.log;
      approval, job := d.approval, d.job;
      this.ttl := ttl;
    }

    method Rollback(d: Db)
      modifies this
      ensures Rows() == d
    {
      run, task, attempts, calls, outbox := d.run, d.task, d.attempts, d.calls, d.outbox;
      checkpoints, patches, decisions, log := d.checkpoints, d.patches, d.decisions, d.log;
      approval, job := d.approval, d.job;
    }

    /** Allocates the next sequence number and stores the event under it. */
    method AppendSyntheticEvent(body: EventBody)
      modifies `log
      ensures log == Emit(old(log), body)
    {
      log := log.(last := log.last + 1);
      log := log.(rows := log.rows + [EventRow(log.last, Synthetic(log.last), body)]);
    }

    method TransitionRun(from: RunStatus, to: RunStatus) returns (ok: bool)
      modifies `run, `log
      ensures ok <==> P.TransitionRun(old(Rows()), from, to).Some?
      ensures Rows() == P.TransitionRun(old(Rows()), from, to).GetOr(old(Rows()))
    {
      if !SM.CanRun(from, to) || run.status != from { return false; }
      run := run.(status := to);
      AppendSyntheticEvent(StatusChange(from, to));
      return true;
    }

    method TransitionTask(from: TaskStatus, to: TaskStatus) returns (ok: bool)
      modifies `task
      ensures ok <==> P.TransitionTask(old(Rows()), from, to).Some?
      ensures Rows() == P.TransitionTask(old(Rows()), from, to).GetOr(old(Rows()))
    {
      if !SM.CanTask(from, to) || task.status != from { return false; }
      task := task.(status := to);
      return true;
    }

    /** `pre` is the run as read before the lock, `known` whether the attempt was found then. */
    method ClaimAttempt(pre: Run, known: bool, no: pos, token: nat, now: int) returns (reply: ClaimReply)
      modifies this
      ensures Rows() == P.ClaimAttempt(old(Rows()), now, ttl, pre, known, no, token)
      ensures reply.Duplicate? <==> known
      ensures reply.Granted? ==> !known && reply == Granted(|old(attempts)|, token) && AttemptIsNew(old(attempts), token)
      ensures !reply.Granted? ==> Rows() == old(Rows())
      ensures reply.Granted? <==> |attempts| > |old(attempts)|
    {
      if known { return Duplicate; }
      if !pre.status.Dispatched? { return Conflict; }
      var saved := Rows();
      if !run.status.Dispatched? || no != P.LatestNo(attempts) + 1 || no > run.cfg.maxAttempts
         || P.HasToken(attempts, token) {
        return Conflict;
      }
      attempts := attempts + [Attempt(no, token, AttemptStatus.Running, None, now + ttl)];
      var ok := TransitionRun(RunStatus.Dispatched, RunStatus.Running);
      if !ok { Rollback(saved); return Conflict; }
      run := run.(activeStartedAt := Some(pre.activeStartedAt.GetOr(now)));
      if task.status.Queued? {
        ok := TransitionTask(TaskStatus.Queued, TaskStatus.Running);
        if !ok { Rollback(saved); return Conflict; }
      }
      return Granted(|attempts| - 1, token);
    }

    /** The granted attempt is the newest row and holds the token. */
    predicate AttemptIsNew(before: seq<Attempt>, token: nat)
      reads this
    {
      && |attempts| == |before| + 1 && attempts[..|before|] == before
      && attempts[|before|].leaseToken == token && attempts[|before|].status.Running?
    }

    method Heartbeat(i: nat, token: nat, now: int) returns (ok: bool)
      modifies `attempts
      ensures Rows() == P.HeartbeatTx(old(Rows()), now, ttl, i, token)
      ensures ok ==> P.AttemptRunning(Rows(), i) && attempts[i].leaseExpiresAt == now + ttl
      ensures ok <==> P.LeaseHeld(old(Rows()), now, i, token) && P.TimeLeft(old(Rows()), now)
    {
      if !P.LeaseHeld(Rows(), now, i, token) || !P.TimeLeft(Rows(), now) { return false; }
      attempts := attempts[i := attempts[i].(leaseExpiresAt := now + ttl)];
      return true;
    }

    method PersistExtras(pre: Run, i: nat, outcome: P.Outcome, now: int)
      modifies `run, `patches
      ensures Rows() == P.PersistExtras(old(Rows()), now, pre, i, outcome)
    {
      if run.cfg.snapshot {
        var elapsed := if run.activeStartedAt.Some? then P.CeilSeconds(now - run.activeStartedAt.value) else 0;
        run := run.(usedSeconds := run.usedSeconds + elapsed, activeStartedAt := None);
      } else {
        if outcome.usedTokens.Some? {
          var reported := outcome.usedTokens.value;
          run := run.(usedTokens := if pre.usedTokens > reported then pre.usedTokens else reported);
        }
        if outcome.usedSeconds.Some? {
          run := run.(usedSeconds := run.usedSeconds + outcome.usedSeconds.value);
        }
      }
      if outcome.patch != "" {
        patches := patches + [Patch(i, outcome.patch)];
      }
    }

    method CompleteSucceeded(pre: Run, i: nat, outcome: P.Outcome, now: int) returns (ok: bool)
      modifies this
      ensures ok <==> P.SucceedTx(old(Rows()), now, pre, i, outcome).Some?
      ensures Rows() == P.SucceedTx(old(Rows()), now, pre, i, outcome).GetOr(old(Rows()))
    {
      var saved := Rows();
      if !P.AttemptRunning(Rows(), i) || attempts[i].leaseExpiresAt <= now { return false; }
      if run.cfg.snapshot && !P.AllSettled(calls) { return false; }
      attempts := attempts[i := attempts[i].(status := AttemptStatus.Succeeded)];
      PersistExtras(pre, i, outcome, now);
      ok := Finish(outcome);
      if !ok { Rollback(saved); }
    }

    method Finish(outcome: P.Outcome) returns (ok: bool)
      modifies this
      ensures ok <==> P.FinishTx(old(Rows()), outcome).Some?
      ensures ok ==> Rows() == P.FinishTx(old(Rows()), outcome).value
    {
      ok := TransitionRun(RunStatus.Running, RunStatus.Verifying);
      if !ok { return; }
      ok := TransitionRun(RunStatus.Verifying, RunStatus.Succeeded);
      if !ok { return; }
      ok := TransitionTask(TaskStatus.Running, TaskStatus.AwaitingApproval);
      if !ok { return; }
      run := run.(phase := "AWAITING_APPROVAL");
      if approval.Some? { return false; }
      var digest := if outcome.patch == "" then None else Some(Sha256(outcome.patch));
      approval := Some(Approval(ApprovalStatus.Pending, digest, None));
      AppendSyntheticEvent(ApprovalRequested);
    }

    method Interrupt(pre: Run) returns (ok: bool)
      modifies `run, `log
      ensures ok <==> P.Interrupt(old(Rows()), pre).Some?
      ensures Rows() == P.Interrupt(old(Rows()), pre).GetOr(old(Rows()))
    {
      if pre.status.Running? || pre.status.Verifying? || pre.status.Dispatched? {
        ok := TransitionRun(pre.status, RunStatus.Interrupted);
      } else {
        ok := true;
      }
    }

    method CompleteFailed(pre: Run, i: nat, code: FailureCode, outcome: P.Outcome, now: int) returns (ok: bool)
      modifies this
      ensures ok <==> P.FailTx(old(Rows()), now, pre, i, code, outcome).Some?
      ensures Rows() == P.FailTx(old(Rows()), now, pre, i, code, outcome).GetOr(old(Rows()))
    {
      var saved := Rows();
      if !P.AttemptRunning(Rows(), i) { return false; }
      attempts := attempts[i := attempts[i].(status := AttemptStatus.Failed, failureCode := Some(code))];
      PersistExtras(pre, i, outcome, now);
      ok := Interrupt(pre);
      if ok { ok := ApplyPolicy(i, attempts[i].no, code, now); }
      if !ok { Rollback(saved); }
    }

    method HandleLeaseExpired(pre: Run, i: nat, now: int) returns (ok: bool)
      modifies this
      ensures ok <==> P.ExpireTx(old(Rows()), now, pre, i).Some?
      ensures Rows() == P.ExpireTx(old(Rows()), now, pre, i).GetOr(old(Rows()))
    {
      var saved := Rows();
      if !P.AttemptRunning(Rows(), i) || attempts[i].leaseExpiresAt > now { return false; }
      attempts := attempts[i := attempts[i].(status := AttemptStatus.LeaseExpired, failureCode := Some(WorkerLost))];
      ok := Interrupt(pre);
      if ok { ok := ApplyPolicy(i, attempts[i].no, WorkerLost, now); }
      if !ok { Rollback(saved); }
    }

    method NeedsAttention(reason: Reason)
      modifies `run, `task
      ensures Rows() == P.Attention(old(Rows()), reason)
    {
      run := run.(phase := "NEEDS_ATTENTION", activeStartedAt := None);
      task := Task(TaskStatus.NeedsAttention, Some(reason));
    }

    method CloseInterval(now: int)
      modifies `run
      ensures Rows() == P.IntervalClosed(old(Rows()), now)
    {
      if run.cfg.snapshot && run.activeStartedAt.Some? {
        var elapsed := P.CeilSeconds(now - run.activeStartedAt.value);
        run := run.(usedSeconds := run.usedSeconds + elapsed, activeStartedAt := None);
      }
    }

    method ApplyPolicy(i: nat, no: pos, code: FailureCode, now: int) returns (ok: bool)
      modifies this
      ensures ok <==> P.ApplyPolicy(old(Rows()), now, i, no, code).Some?
      ensures ok ==> Rows() == P.ApplyPolicy(old(Rows()), now, i, no, code).value
    {
      CloseInterval(now);
      if run.cfg.snapshot {
        var unresolved := !P.AllSettled(calls);
        if unresolved || P.Exhausted(run, now) {
          NeedsAttention(Said(if unresolved then "MODEL_USAGE_UNKNOWN" else "BUDGET_EXHAUSTED"));
          return true;
        }
      }
      var action := if run.cfg.recoveryDisabled then Abort else ActionFor(code, no, run.cfg.maxAttempts);
      decisions := decisions + [Decision(i, code, action)];
      ok := Enact(i, no, code, action, now);
    }

    method Enact(i: nat, no: pos, code: FailureCode, action: PolicyAction, now: int) returns (ok: bool)
      modifies this
      ensures ok <==> P.Enact(old(Rows()), now, i, no, code, action).Some?
      ensures ok ==> Rows() == P.Enact(old(Rows()), now, i, no, code, action).value
    {
      if Redispatches(action) {
        ok := Redispatch(no, action, BackoffMs(code, no, action), i, now);
      } else if action.Abort? {
        run := run.(phase := "FAILED", activeStartedAt := None);
        ok := TransitionRun(RunStatus.Interrupted, RunStatus.Failed);
        if ok && task.status.Running? {
          ok := TransitionTask(TaskStatus.Running, TaskStatus.Failed);
        }
      } else {
        NeedsAttention(FailedWith(code));
        ok := true;
      }
    }

    method Redispatch(no: pos, action: PolicyAction, backoffMs: nat, ghost i: nat, now: int) returns (ok: bool)
      modifies this
      ensures ok <==> P.Redispatch(old(Rows()), now, i, no, action, backoffMs).Some?
      ensures ok ==> Rows() == P.Redispatch(old(Rows()), now, i, no, action, backoffMs).value
    {
      if run.cfg.snapshot {
        run := run.(usedSeconds := run.usedSeconds + P.CeilSeconds(backoffMs), phase := "QUEUED");
        if run.usedSeconds >= run.cfg.budgetSeconds {
          NeedsAttention(Said("BUDGET_EXHAUSTED"));
          return true;
        }
      }
      ok := SendAgain(no, action, backoffMs, now);
    }

    method SendAgain(no: pos, action: PolicyAction, backoffMs: nat, now: int) returns (ok: bool)
      modifies `run, `log, `outbox
      ensures ok <==> P.SendAgain(old(Rows()), now, no, action, backoffMs).Some?
      ensures ok ==> Rows() == P.SendAgain(old(Rows()), now, no, action, backoffMs).value
    {
      var checkpoint: Option<nat> :=
        if action.Resume? && checkpoints != [] then Some(|checkpoints| - 1) else None;
      ok := TransitionRun(RunStatus.Interrupted, RunStatus.Recovering);
      if !ok { return; }
      outbox := outbox + [Message(P.BuildCommand(run, no + 1, checkpoint), now + backoffMs)];
      AppendSyntheticEvent(EventBody.RecoveryAction(action, checkpoint, no + 1));
      ok := TransitionRun(RunStatus.Recovering, RunStatus.Dispatched);
    }

    method SaveCheckpoint(cp: Checkpoint, reported: nat, now: int) returns (ok: bool)
      modifies `checkpoints, `run
      ensures Rows() == P.SaveCheckpoint(old(Rows()), now, cp, reported)
      ensures ok <==> checkpoints == old(checkpoints) + [cp]
    {
      if !P.AttemptRunning(Rows(), cp.attempt) || attempts[cp.attempt].leaseExpiresAt <= now
         || !(run.status.Running? || run.status.Verifying?) {
        return false;
      }
      checkpoints := checkpoints + [cp];
      if !run.cfg.snapshot && run.usedTokens < reported {
        run := run.(usedTokens := reported);
      }
      return true;
    }

    method SetPhase(i: nat, token: nat, phase: string, now: int) returns (ok: bool)
      modifies `run, `log
      ensures Rows() == P.SetPhase(old(Rows()), now, i, token, phase)
      ensures ok <==> P.LeaseHeld(old(Rows()), now, i, token) && P.TimeLeft(old(Rows()), now)
    {
      if !P.LeaseHeld(Rows(), now, i, token) || !P.TimeLeft(Rows(), now) { return false; }
      var before := run.phase;
      run := run.(phase := phase);
      AppendSyntheticEvent(PhaseChange(before, phase));
      return true;
    }

    method Environment(i: nat, token: nat, image: string, resolved: Option<string>, now: int) returns (ok: bool)
      modifies `run
      ensures Rows() == P.PinEnvironment(old(Rows()), now, i, token, image, resolved)
      ensures ok && old(run).imageId.Some? ==> run.imageId == old(run).imageId
      ensures ok <==>
        && P.LeaseHeld(old(Rows()), now, i, token) && P.TimeLeft(old(Rows()), now)
        && old(run).imageId in {None, Some(image)} && resolved in {None, Some(image)}
    {
      if !P.LeaseHeld(Rows(), now, i, token) || !P.TimeLeft(Rows(), now) { return false; }
      if run.imageId.Some? && run.imageId.value != image { return false; }
      if resolved.Some? && resolved.value != image { return false; }
      run := run.(imageId := Some(image));
      return true;
    }

    method Pause(i: nat, token: nat, reason: string, patch: string, now: int) returns (ok: bool)
      modifies this
      ensures Rows() == P.PauseTx(old(Rows()), now, i, token, reason, patch)
      ensures ok <==> P.LeaseHeld(old(Rows()), now, i, token)
    {
      if !P.LeaseHeld(Rows(), now, i, token) { return false; }
      PauseUnderLease(i, reason, patch, now);
      return true;
    }

    method PauseUnderLease(i: nat, reason: string, patch: string, now: int)
      requires i < |attempts|
      modifies `run, `attempts, `task, `patches, `log
      ensures Rows() == P.Paused(old(Rows()), now, i, reason, patch)
    {
      var before := run.status;
      var since := run.activeStartedAt.GetOr(now);
      run := run.(status := RunStatus.Interrupted, phase := "NEEDS_ATTENTION",
                  usedSeconds := run.usedSeconds + P.CeilSeconds(now - since), activeStartedAt := None);
      attempts := attempts[i := attempts[i].(status := AttemptStatus.Failed)];
      task := Task(TaskStatus.NeedsAttention, Some(Said(reason)));
      if patch != "" {
        patches := patches + [Patch(i, patch)];
      }
      AppendSyntheticEvent(StatusChange(before, RunStatus.Interrupted));
    }

    method Cancel(now: int) returns (ok: bool)
      modifies this
      ensures Rows() == P.CancelTx(old(Rows()), now)
      ensures ok <==> run.status.Cancelled?
    {
      if run.status.Cancelled? { return true; }
      if run.status.Succeeded? || run.status.Failed? { return false; }
      var before := run.status;
      var elapsed := if run.activeStartedAt.Some? then P.CeilSeconds(now - run.activeStartedAt.value) else 0;
      run := run.(status := RunStatus.Cancelled, phase := "CANCELLED",
                  usedSeconds := run.usedSeconds + elapsed, activeStartedAt := None);
      task := task.(status := TaskStatus.Cancelled);
      attempts := P.CancelAttempts(attempts);
      AppendSyntheticEvent(StatusChange(before, RunStatus.Cancelled));
      return true;
    }

    method Resume(now: int) returns (ok: bool)
      modifies this
      ensures Rows() == P.ResumeTx(old(Rows()), now)
      ensures ok <==> old(run).status.Interrupted? && run.status.Dispatched?
    {
      if !run.status.Interrupted? || !run.cfg.snapshot { return false; }
      if run.usedTokens >= run.cfg.budgetTokens || run.usedSeconds >= run.cfg.budgetSeconds
         || |attempts| >= run.cfg.maxAttempts || !P.AllSettled(calls) || P.DeadlinePassed(run, now) {
        return false;
      }
      if P.ContractRefuted(task) { return false; }
      var checkpoint := P.LatestCheckpoint(Rows());
      var command := P.BuildCommand(run, P.LatestNo(attempts) + 1, checkpoint);
      run := run.(status := RunStatus.Dispatched, phase := "QUEUED");
      task := Task(TaskStatus.Queued, None);
      outbox := outbox + [Message(command, now)];
      AppendSyntheticEvent(StatusChange(RunStatus.Interrupted, RunStatus.Dispatched));
      return true;
    }

    method Reserve(i: nat, token: nat, id: nat, amount: nat, now: int) returns (ok: bool)
      modifies `calls
      ensures Rows() == P.ReserveTx(old(Rows()), now, i, token, id, amount)
      ensures ok <==> P.MayReserve(old(Rows()), now, i, token, id, amount)
    {
      if !P.LeaseHeld(Rows(), now, i, token) { return false; }
      if P.DeadlinePassed(run, now) { return false; }
      var elapsedMs := if run.activeStartedAt.Some? then now - run.activeStartedAt.value else 0;
      if run.usedSeconds * 1000 + elapsedMs >= run.cfg.budgetSeconds * 1000 { return false; }
      var prior := P.FindCall(calls, id);
      if prior.Some? { return false; }
      var available := AvailableBudget();
      if available < amount { return false; }
      calls := calls + [Call(id, amount, None, CallStatus.Reserved)];
      return true;
    }

    /** The ledger folded from the first row on. */
    method Total() returns (total: nat)
      ensures total == P.LedgerTotal(calls)
    {
      total := 0;
      for k := 0 to |calls|
        invariant total == P.LedgerTotal(calls[..k])
      {
        assert calls[..k + 1][..k] == calls[..k];
        total := total + (if calls[k].used.Some? then calls[k].used.value else calls[k].reserved);
      }
      assert calls[..|calls|] == calls;
    }

    method AvailableBudget() returns (available: nat)
      ensures available == P.AvailableBudget(run.cfg.budgetTokens, calls)
    {
      var total := Total();
      available := if run.cfg.budgetTokens > total then run.cfg.budgetTokens - total else 0;
    }

    method Settle(id: nat, used: Option<nat>) returns (ok: bool)
      modifies `calls, `run
      ensures Rows() == P.SettleTx(old(Rows()), id, used)
      ensures ok ==> exists k :: 0 <= k < |calls| && calls[k].id == id && calls[k].used == used
      ensures ok <==>
        var at := P.FindCall(old(calls), id);
        at.Some? && (old(calls)[at.value].status.Settled? ==> old(calls)[at.value].used == used)
    {
      var at := P.FindCall(calls, id);
      if at.None? { return false; }
      var call := calls[at.value];
      if call.status.Settled? {
        return call.used == used;
      }
      calls := calls[at.value := call.(used := used,
                                       status := if used.None? then CallStatus.Unknown else CallStatus.Settled)];
      assert calls[at.value].id == id && calls[at.value].used == used;
      var total := Total();
      run := run.(usedTokens := total);
      return true;
    }

    // ---- Approval and delivery of the finished run ----

    method Reject() returns (ok: bool)
      modifies `approval, `task
      ensures Rows() == D.RejectTx(old(Rows()))
      ensures ok <==> run.cfg.snapshot && approval.Some? && approval.value.status.Rejected?
    {
      if approval.None? || !run.cfg.snapshot { return false; }
      if approval.value.status.Rejected? { return true; }
      if !approval.value.status.Pending? { return false; }
      approval := Some(approval.value.(status := ApprovalStatus.Rejected));
      task := task.(status := TaskStatus.Rejected);
      return true;
    }

    method Approve() returns (ok: bool)
      modifies `approval, `task, `job
      ensures Rows() == D.ApproveTx(old(Rows()))
      ensures ok <==> approval.Some? && approval.value.status.Approved?
    {
      if approval.None? { return false; }
      if approval.value.status.Approved? { return true; }
      if !approval.value.status.Pending? || !run.cfg.snapshot { return false; }
      if patches == [] || Some(Sha256(patches[|patches| - 1].content)) != approval.value.patchDigest { return false; }
      approval := Some(approval.value.(status := ApprovalStatus.Approved));
      if run.cfg.delivery.PatchOnly? {
        task := task.(status := TaskStatus.Resolved);
        return true;
      }
      task := task.(status := TaskStatus.Approved);
      job := Some(Job(JobStatus.Queued, 0, approval.value.patchDigest.value, None, 0, None, None));
      return true;
    }

    method Retry() returns (ok: bool)
      modifies `job, `task
      ensures Rows() == D.RetryTx(old(Rows()))
      ensures ok ==> job.Some? && job.value.status.Queued? && job.value.attempts < D.MAX_DELIVERIES
      ensures ok <==> old(job).Some? && old(job).value.status.Failed? && old(job).value.attempts < 5
    {
      if job.None? || !job.value.status.Failed? || job.value.attempts >= 5 { return false; }
      job := Some(job.value.(status := JobStatus.Queued));
      task := Task(TaskStatus.Approved, None);
      return true;
    }

    /** The row half of a tick: retire an exhausted job, then claim one that is free. */
    method ClaimDelivery(token: nat, now: int) returns (claimed: bool)
      modifies `job, `task
      ensures Rows() == D.ClaimJobTx(D.GiveUpTx(old(Rows()), now), now, token)
      ensures claimed ==> job.Some? && D.Owns(job.value, token) && job.value.attempts <= D.MAX_DELIVERIES
      ensures claimed <==>
        && old(job).Some? && old(job).value.attempts < 5
        && (old(job).value.status.Queued? || (old(job).value.status.Running? && old(job).value.leaseExpiresAt < now))
    {
      if job.None? { return false; }
      if job.value.status.Running? && job.value.attempts >= 5 && job.value.leaseExpiresAt < now {
        job := Some(job.value.(status := JobStatus.Failed));
        task := task.(status := TaskStatus.PrFailed);
      }
      if job.value.attempts >= 5 { return false; }
      if !(job.value.status.Queued? || (job.value.status.Running? && job.value.leaseExpiresAt < now)) { return false; }
      job := Some(job.value.(status := JobStatus.Running, leaseToken := Some(token),
                             leaseExpiresAt := now + 600_000, attempts := job.value.attempts + 1));
      return true;
    }

    /** Stores how a delivery ended, if its token still owns the job. */
    method FinishDelivery(token: nat, result: DeliveryResult, now: int) returns (changed: bool)
      modifies `job, `approval, `task
      ensures Rows() == D.DeliveryStep(old(Rows()), now,
                                       match result
                                       case Opened(url) => D.RecordPr(token, url)
                                       case Failure(conflict, message) => D.RecordError(token, conflict, message))
      ensures changed <==>
        && old(job).Some? && old(job).value.status.Running? && old(job).value.leaseToken == Some(token)
        && (result.Opened? ==> old(approval).Some?)
    {
      if job.None? || job.value.leaseToken != Some(token) || !job.value.status.Running? { return false; }
      match result {
        case Opened(url) =>
          if approval.None? { return false; }
          job := Some(job.value.(status := JobStatus.Succeeded, prUrl := Some(url)));
          approval := Some(approval.value.(prUrl := Some(url)));
          task := task.(status := TaskStatus.PrCreated);
        case Failure(conflict, message) =>
          job := Some(job.value.(status := if conflict then JobStatus.NeedsAttention else JobStatus.Failed));
          task := Task(TaskStatus.PrFailed, Some(Said(message)));
      }
      return true;
    }
  }
}
