/** Which status changes a transaction can commit, and what follows for whole runs. */
module RunMoves {
  import opened Wrappers
  import opened Rows
  import opened StateMachine
  import opened PolicyEngine
  import opened RunProtocol
  import opened DeliveryRows
  import opened RunSystem
  import opened RunInvariant
  import opened JointProof
  import opened LogProof
  import opened TimeProof
  import opened RunTheorems

  /** The committed status changes of a run, with the number of attempts they add. */
  predicate CanMove(from: RunStatus, to: RunStatus, added: int) {
    || (from == to && added == 0)
    || (from.Dispatched? && to.Running? && added == 1)
    || (from.Running? && (to.Succeeded? || to.Failed? || to.Interrupted? || to.Dispatched?) && added == 0)
    || (from.Interrupted? && to.Dispatched? && added == 0)
    || (!RunTerminal(from) && to.Cancelled? && added == 0)
  }

  ghost predicate Moves(d: Db, e: Db) { CanMove(d.run.status, e.run.status, |e.attempts| - |d.attempts|) }

  lemma StepMoves(d: Db, now: int, ttl: nat, op: Op)
    requires JointOk(d)
    ensures Moves(d, Apply(d, now, ttl, op))
  {
    match op
    case Fail(_, _, _) => FailureStep(d, now, ttl, op);
    case Expire(_) => FailureStep(d, now, ttl, op);
    case Succeed(i, outcome) => if AttemptRunning(d, i) { SucceedCommits(d, now, d.run, i, outcome); }
    case Deliver(dop) => DeliveryStepKeepsCoupling(d, now, dop);
    case _ =>
  }

  // ---- What a new command asks for ----

  /** The last checkpoint that was saved, or that there is none. */
  predicate IsNewest(checkpoints: seq<Checkpoint>, cp: Option<nat>) {
    && (cp.None? <==> checkpoints == [])
    && (cp.Some? ==> cp.value + 1 == |checkpoints|)
  }

  /** The last event but one, before the run is dispatched, says what is done and with which attempt. */
  predicate Announces(rows: seq<EventRow>, action: PolicyAction, command: Command) {
    |rows| >= 2 && rows[|rows| - 2].body == EventBody.RecoveryAction(action, command.checkpoint, command.attemptNo)
  }

  /**
   The command a transaction adds, if any: the next attempt, from the newest checkpoint or from scratch,
   with what is left of both budgets.
   */
  ghost predicate AsksForNext(d: Db, e: Db, now: int, op: Op) {
    |e.outbox| > |d.outbox| ==>
      && |e.outbox| == |d.outbox| + 1
      && var message := e.outbox[|d.outbox|];
        && message.command.attemptNo == |d.attempts| + 1
        && (message.command.kind.ResumeRun? <==> message.command.checkpoint.Some?)
        && message.command.remainingTokens
           == (if e.run.usedTokens < e.run.cfg.budgetTokens then e.run.cfg.budgetTokens - e.run.usedTokens else 0)
        && message.command.remainingSeconds
           == (if e.run.usedSeconds < e.run.cfg.budgetSeconds then e.run.cfg.budgetSeconds - e.run.usedSeconds else 0)
        && (if op.ResumeRun? then IsNewest(d.checkpoints, message.command.checkpoint) && message.notBefore == now
            else
              && (op.Fail? || op.Expire?) && |e.decisions| == |d.decisions| + 1
              && var decision := e.decisions[|d.decisions|];
                && Redispatches(decision.action) && decision.attempt + 1 == |d.attempts|
                && (decision.action.Resume? ==> IsNewest(d.checkpoints, message.command.checkpoint))
                && (decision.action.RestartAttempt? ==> message.command.checkpoint == None)
                && Announces(e.log.rows, decision.action, message.command)
                && message.notBefore == now + BackoffMs(decision.code, decision.attempt + 1, decision.action))
  }

  lemma RedispatchedAsks(d: Db, d1: Db, now: int, i: nat, code: FailureCode, action: PolicyAction, op: Op)
    requires d1.outbox == d.outbox && d1.checkpoints == d.checkpoints
    requires d1.decisions == d.decisions + [Decision(i, code, action)]
    requires i == |d.attempts| - 1 && Redispatches(action) && (op.Fail? || op.Expire?)
    ensures AsksForNext(d, Redispatched(d1, now, i + 1, action, BackoffMs(code, i + 1, action)), now, op)
  {
  }

  lemma FailureAsks(d: Db, now: int, i: nat, status: AttemptStatus, code: Option<FailureCode>, failure: FailureCode, op: Op)
    requires i == |d.attempts| - 1 && (op.Fail? || op.Expire?)
    ensures AsksForNext(d, PolicyResult(Ended(d, now, i, status, code), now, i, i + 1, failure), now, op)
  {
    var d0 := IntervalClosed(Ended(d, now, i, status, code), now);
    var action := DecideFor(d0, i + 1, failure);
    if Redispatches(action) {
      RedispatchedAsks(d, d0.(decisions := d0.decisions + [Decision(i, failure, action)]), now, i, failure, action, op);
    }
  }

  lemma OtherAsks(d: Db, now: int, ttl: nat, op: Op)
    requires JointOk(d) && !op.Fail? && !op.Expire?
    ensures AsksForNext(d, Apply(d, now, ttl, op), now, op)
  {
    match op
    case Succeed(i, outcome) => if AttemptRunning(d, i) { SucceedCommits(d, now, d.run, i, outcome); }
    case ResumeRun => LatestIsCount(d.attempts);
    case Deliver(dop) => DeliveryStepKeepsCoupling(d, now, dop);
    case _ =>
  }

  lemma FailAsks(d: Db, now: int, i: nat, code: FailureCode, outcome: Outcome, op: Op)
    requires Executing(d, i) && i == |d.attempts| - 1 && op.Fail?
    ensures AsksForNext(d, FailTx(d, now, d.run, i, code, outcome).GetOr(d), now, op)
  {
    FailCommits(d, now, d.run, i, code, outcome);
    var d0 := PersistExtras(d, now, d.run, i, outcome);
    FailureAsks(d0, now, i, AttemptStatus.Failed, Some(code), code, op);
    SameRowsAskAlike(d, d0, PolicyResult(Ended(d0, now, i, AttemptStatus.Failed, Some(code)), now, i, i + 1, code), now, op);
  }

  lemma SameRowsAskAlike(d: Db, d0: Db, e: Db, now: int, op: Op)
    requires d0.outbox == d.outbox && d0.attempts == d.attempts && d0.checkpoints == d.checkpoints
    requires d0.decisions == d.decisions
    ensures AsksForNext(d0, e, now, op) ==> AsksForNext(d, e, now, op)
  {
  }

  lemma ExpireAsks(d: Db, now: int, ttl: nat, i: nat)
    requires JointOk(d)
    ensures AsksForNext(d, Apply(d, now, ttl, Expire(i)), now, Expire(i))
  {
    if AttemptRunning(d, i) && d.attempts[i].leaseExpiresAt <= now {
      ExpireCommits(d, now, d.run, i);
      FailureAsks(d, now, i, AttemptStatus.LeaseExpired, Some(WorkerLost), WorkerLost, Expire(i));
    }
  }

  /** No transaction but a decision of the policy or a resume by hand sends a command. */
  lemma NewCommandAsksForNext(d: Db, now: int, ttl: nat, op: Op)
    requires JointOk(d)
    ensures AsksForNext(d, Apply(d, now, ttl, op), now, op)
  {
    match op
    case Fail(i, code, outcome) => if AttemptRunning(d, i) { FailAsks(d, now, i, code, outcome, op); }
    case Expire(i) => ExpireAsks(d, now, ttl, i);
    case _ => OtherAsks(d, now, ttl, op);
  }

  lemma StepKeepsCheckpoints(d: Db, now: int, ttl: nat, op: Op)
    requires JointOk(d) && !op.Save?
    ensures Apply(d, now, ttl, op).checkpoints == d.checkpoints
  {
    match op
    case Fail(_, _, _) => FailureStep(d, now, ttl, op);
    case Expire(_) => FailureStep(d, now, ttl, op);
    case Succeed(i, outcome) => if AttemptRunning(d, i) { SucceedCommits(d, now, d.run, i, outcome); }
    case Deliver(dop) => DeliveryStepKeepsCoupling(d, now, dop);
    case _ =>
  }

  predicate NoSave(ops: seq<Op>) { forall i :: 0 <= i < |ops| ==> !ops[i].Save? }

  lemma {:induction false} CheckpointsStay(s: Sys, ops: seq<Op>)
    requires Inv(s) && NoSave(ops)
    ensures Exec(s, ops).d.checkpoints == s.d.checkpoints
    decreases |ops|
  {
    if ops != [] {
      assert !ops[0].Save?;
      assert forall i :: 0 <= i < |ops[1..]| ==> ops[1..][i] == ops[i + 1];
      StepKeepsInv(s, ops[0]);
      StepKeepsCheckpoints(s.d, s.now, s.ttl, ops[0]);
      CheckpointsStay(Next(s, ops[0]), ops[1..]);
    }
  }

  /** If a command was added, it resumes from checkpoint `at`, which is `cp`, or not at all. */
  ghost predicate ResumesFrom(d: Db, e: Db, at: nat, cp: Checkpoint, op: Op) {
    |e.outbox| > |d.outbox| ==>
      var command := e.outbox[|d.outbox|].command;
      && (command.kind.ResumeRun? ==> command.checkpoint == Some(at) && at < |e.checkpoints| && e.checkpoints[at] == cp)
      && (op.ResumeRun? ==> command.kind.ResumeRun?)
  }

  lemma NewestIsResumed(d: Db, now: int, ttl: nat, op: Op, before: seq<Checkpoint>, cp: Checkpoint)
    requires JointOk(d) && !op.Save?
    ensures d.checkpoints == before + [cp] ==> ResumesFrom(d, Apply(d, now, ttl, op), |before|, cp, op)
  {
    StepKeepsCheckpoints(d, now, ttl, op);
    NewCommandAsksForNext(d, now, ttl, op);
    AskingResumes(d, Apply(d, now, ttl, op), now, op, before, cp);
  }

  lemma AskingResumes(d: Db, e: Db, now: int, op: Op, before: seq<Checkpoint>, cp: Checkpoint)
    requires e.checkpoints == d.checkpoints
    ensures AsksForNext(d, e, now, op) && d.checkpoints == before + [cp] ==> ResumesFrom(d, e, |before|, cp, op)
  {
  }

  /**
   Saved work is resumed.  After a checkpoint was saved and until the next one is, whatever happens in
   between, every command that resumes at all resumes from it; and a resume by hand always does.
   */
  lemma SavedWorkIsResumed(s: Sys, cp: Checkpoint, reported: nat, between: seq<Op>, op: Op)
    requires Reachable(s) && Next(s, Save(cp, reported)).d.checkpoints == s.d.checkpoints + [cp]
    requires NoSave(between) && !op.Save?
    ensures var m := Exec(Next(s, Save(cp, reported)), between);
      ResumesFrom(m.d, Next(m, op).d, |s.d.checkpoints|, cp, op)
  {
    var f := Next(s, Save(cp, reported));
    var m := Exec(f, between);
    EveryRunKeepsInv(s);
    StepKeepsInv(s, Save(cp, reported));
    ExecKeepsInv(f, between);
    CheckpointsStay(f, between);
    NewestIsResumed(m.d, m.now, m.ttl, op, s.d.checkpoints, cp);
  }

  // ---- Termination ----

  function Rank(status: RunStatus): nat {
    match status
    case Running => 3
    case Interrupted => 2
    case Dispatched => 1
    case _ => 0
  }

  /** Three status changes for every attempt that is left, plus what the current one still needs. */
  function Measure(d: Db): int { 3 * (d.run.cfg.maxAttempts - |d.attempts|) + Rank(d.run.status) }

  function StatusChanges(s: Sys, ops: seq<Op>): nat
    decreases |ops|
  {
    if ops == [] then 0
    else
      var e := Next(s, ops[0]);
      (if e.d.run.status == s.d.run.status then 0 else 1) + StatusChanges(e, ops[1..])
  }

  /** Every committed change of the run's status makes the measure smaller; nothing makes it larger. */
  lemma MeasureDecreases(s: Sys, op: Op)
    requires Inv(s)
    ensures 0 <= Measure(Next(s, op).d) <= Measure(s.d)
    ensures Next(s, op).d.run.status != s.d.run.status ==> Measure(Next(s, op).d) < Measure(s.d)
  {
    StepKeepsInv(s, op);
    StepMoves(s.d, s.now, s.ttl, op);
    ConfigNeverChanges(s.d, s.now, s.ttl, op);
  }

  lemma {:induction false} ChangesAreBounded(s: Sys, ops: seq<Op>)
    requires Inv(s)
    ensures 0 <= Measure(Exec(s, ops).d) <= Measure(s.d) - StatusChanges(s, ops)
    decreases |ops|
  {
    if ops == [] {
      assert Measure(s.d) >= 0;
    } else {
      MeasureDecreases(s, ops[0]);
      StepKeepsInv(s, ops[0]);
      ChangesAreBounded(Next(s, ops[0]), ops[1..]);
    }
  }

  /**
   No run cycles through recovery for ever: whatever is done to it, its status changes at most
   3 * maxAttempts + 1 times from creation on.
   */
  lemma RunsTerminate(cfg: Config, now: int, ttl: nat, ops: seq<Op>)
    requires ValidConfig(cfg)
    ensures StatusChanges(Start(cfg, now, ttl), ops) <= 3 * cfg.maxAttempts + 1
  {
    CreationHolds(cfg, now, ttl);
    ChangesAreBounded(Start(cfg, now, ttl), ops);
  }
}
