/** Every transaction charges active time exactly once, and leases are only extended in time. */
module TimeProof {
  import opened Wrappers
  import opened Rows
  import opened PolicyEngine
  import opened RunProtocol
  import opened DeliveryRows
  import opened RunSystem
  import opened RunInvariant
  import opened JointProof
  import opened LogProof
  import opened LedgerProof

  lemma CeilBounds(ms: int)
    ensures ms <= 1000 * CeilSeconds(ms) <= ms + 999
  {
  }

  lemma BackoffOfAppend(decisions: seq<Decision>, last: Decision)
    ensures ChargedBackoff(decisions + [last])
         == ChargedBackoff(decisions) + BackoffMs(last.code, last.attempt + 1, last.action) / 1000
  {
    assert (decisions + [last])[..|decisions|] == decisions;
  }

  /** Later attempts wait at least as long. */
  lemma {:induction false} Pow2Grows(m: nat, n: nat)
    requires m <= n
    ensures 1 <= Pow2(m) <= Pow2(n)
    decreases n
  {
    if m < n { Pow2Grows(m, n - 1); } else if n > 0 { Pow2Grows(n - 1, n - 1); }
  }

  /** A backoff is whole seconds, at most 30 doubled per attempt, and nothing at the attempt limit. */
  lemma BackoffBound(code: FailureCode, no: pos, maxAttempts: nat, action: PolicyAction)
    requires action == ActionFor(code, no, maxAttempts) || !Redispatches(action)
    ensures var ms := BackoffMs(code, no, action);
      && CeilSeconds(ms) == ms / 1000 && ms / 1000 <= 30 * Pow2(no - 1)
      && (no >= maxAttempts ==> ms == 0)
  {
    AtLimitNeverRedispatches(code, no, maxAttempts);
    Pow2Grows(0, no - 1);
  }

  /** What the failure of the running attempt does to the run's clock columns. */
  ghost predicate Charged(d: Db, now: int, e: Db) {
    && e.run.cfg == d.run.cfg && |e.attempts| == |d.attempts| && !e.run.status.Running?
    && e.run.activeStartedAt.None?
    && e.run.usedSeconds
       == d.run.usedSeconds + CeilSeconds(ActiveMs(d.run, now)) + ChargedBackoff(e.decisions) - ChargedBackoff(d.decisions)
    && ChargedBackoff(d.decisions) <= ChargedBackoff(e.decisions)
    && (|d.attempts| >= d.run.cfg.maxAttempts ==> ChargedBackoff(e.decisions) == ChargedBackoff(d.decisions))
    && (|d.attempts| >= 1 ==> ChargedBackoff(e.decisions) <= ChargedBackoff(d.decisions) + 30 * Pow2(|d.attempts| - 1))
  }

  lemma RedispatchedCharges(d: Db, now: int, i: nat, code: FailureCode, action: PolicyAction)
    requires d.run.cfg.snapshot && d.run.status.Interrupted? && d.run.activeStartedAt.None?
    requires Redispatches(action) && action == ActionFor(code, i + 1, d.run.cfg.maxAttempts)
    ensures var d1 := d.(decisions := d.decisions + [Decision(i, code, action)]);
      var e := Redispatched(d1, now, i + 1, action, BackoffMs(code, i + 1, action));
      && e.run.cfg == d.run.cfg && e.attempts == d.attempts && e.decisions == d1.decisions
      && !e.run.status.Running? && e.run.activeStartedAt.None?
      && e.run.usedSeconds == d.run.usedSeconds + ChargedBackoff(e.decisions) - ChargedBackoff(d.decisions)
      && ChargedBackoff(d.decisions) <= ChargedBackoff(e.decisions) <= ChargedBackoff(d.decisions) + 30 * Pow2(i)
      && (i + 1 >= d.run.cfg.maxAttempts ==> ChargedBackoff(e.decisions) == ChargedBackoff(d.decisions))
  {
    BackoffOfAppend(d.decisions, Decision(i, code, action));
    BackoffBound(code, i + 1, d.run.cfg.maxAttempts, action);
  }

  lemma StoppedCharges(d: Db, now: int, decisions: seq<Decision>, reason: Reason)
    requires d.run.cfg.snapshot && d.run.status.Interrupted? && |d.attempts| >= 1
    requires ChargedBackoff(decisions) == ChargedBackoff(d.decisions)
    ensures Charged(d, now, Attention(IntervalClosed(d, now), reason).(decisions := decisions))
    ensures Charged(d, now, Aborted(IntervalClosed(d, now)).(decisions := decisions))
  {
    Pow2Grows(0, |d.attempts| - 1);
  }

  lemma SentCharges(d: Db, now: int, i: nat, code: FailureCode, action: PolicyAction)
    requires d.run.cfg.snapshot && d.run.status.Interrupted? && i == |d.attempts| - 1
    requires Redispatches(action) && action == ActionFor(code, i + 1, d.run.cfg.maxAttempts)
    ensures var d0 := IntervalClosed(d, now);
      Charged(d, now, Redispatched(d0.(decisions := d0.decisions + [Decision(i, code, action)]), now, i + 1, action,
                                   BackoffMs(code, i + 1, action)))
  {
    RedispatchedCharges(IntervalClosed(d, now), now, i, code, action);
  }

  lemma PolicyCharges(d: Db, now: int, i: nat, code: FailureCode)
    requires d.run.cfg.snapshot && d.run.status.Interrupted? && d.task.status.Running?
    requires i == |d.attempts| - 1
    ensures Charged(d, now, PolicyResult(d, now, i, i + 1, code))
  {
    var d0 := IntervalClosed(d, now);
    var action := DecideFor(d0, i + 1, code);
    if Unresolved(d0) || Exhausted(d0.run, now) {
      StoppedCharges(d, now, d.decisions, Said(if Unresolved(d0) then "MODEL_USAGE_UNKNOWN" else "BUDGET_EXHAUSTED"));
    } else if Redispatches(action) {
      SentCharges(d, now, i, code, action);
    } else {
      BackoffOfAppend(d.decisions, Decision(i, code, action));
      StoppedCharges(d, now, d.decisions + [Decision(i, code, action)], FailedWith(code));
    }
  }

  /** A closed interval carries the time invariant over to the status it leaves. */
  lemma ChargedKeepsTime(s: Sys, e: Db)
    requires JointOk(s.d) && TimeOk(s) && s.d.run.cfg.snapshot && s.d.run.status.Running?
    ensures Charged(s.d, s.now, e) ==>
      TimeOk(Sys(e, s.now, s.ttl, Observe(s.clock, s.d, e, s.now)))
  {
    if Charged(s.d, s.now, e) {
      CeilBounds(s.now - s.clock.runningSince);
      var n := |s.d.attempts|;
      var max := s.d.run.cfg.maxAttempts;
      Pow2Grows(0, n - 1);
      if n < max {
        assert Pow2(n) == 2 * Pow2(n - 1);
      }
    }
  }

  function Timed(s: Sys, op: Op): Sys {
    var e := Apply(s.d, s.now, s.ttl, op);
    Sys(e, s.now, s.ttl, Observe(s.clock, s.d, e, s.now))
  }

  /** An interval that was closed before the policy looked at the rows is charged by then. */
  lemma ChargedBefore(d: Db, d1: Db, now: int, e: Db)
    requires d1.run.cfg == d.run.cfg && |d1.attempts| == |d.attempts| && d1.decisions == d.decisions
    requires d1.run.activeStartedAt.None? && d1.run.usedSeconds == d.run.usedSeconds + CeilSeconds(ActiveMs(d.run, now))
    ensures Charged(d1, now, e) ==> Charged(d, now, e)
  {
  }

  /** The open interval was closed in `d0`, and then attempt `i` ended and the policy acted. */
  lemma EndedCharges(d: Db, d0: Db, now: int, i: nat, status: AttemptStatus, code: FailureCode)
    requires d.run.cfg.snapshot && d.task.status.Running? && i == |d.attempts| - 1
    requires d0.run == ChargeActive(d.run, now)
    requires d0.attempts == d.attempts && d0.decisions == d.decisions && d0.task == d.task
    ensures Charged(d, now, PolicyResult(Ended(d0, now, i, status, Some(code)), now, i, i + 1, code))
  {
    var d1 := Ended(d0, now, i, status, Some(code));
    PolicyCharges(d1, now, i, code);
    ChargedBefore(d, d1, now, PolicyResult(d1, now, i, i + 1, code));
  }

  lemma FailCharges(d: Db, now: int, i: nat, code: FailureCode, outcome: Outcome)
    requires d.run.cfg.snapshot && Executing(d, i) && i == |d.attempts| - 1
    ensures Charged(d, now, FailTx(d, now, d.run, i, code, outcome).GetOr(d))
  {
    FailCommits(d, now, d.run, i, code, outcome);
    EndedCharges(d, PersistExtras(d, now, d.run, i, outcome), now, i, AttemptStatus.Failed, code);
  }

  /** Of the rows before, Charged reads only these. */
  lemma ChargedAlike(d: Db, d1: Db, now: int, e: Db)
    requires d1.run.cfg == d.run.cfg && |d1.attempts| == |d.attempts| && d1.decisions == d.decisions
    requires d1.run.activeStartedAt == d.run.activeStartedAt && d1.run.usedSeconds == d.run.usedSeconds
    ensures Charged(d1, now, e) ==> Charged(d, now, e)
  {
  }

  /** An open interval is charged by the policy itself. */
  lemma OpenCharges(d: Db, now: int, i: nat, status: AttemptStatus, code: FailureCode)
    requires d.run.cfg.snapshot && d.task.status.Running? && i == |d.attempts| - 1
    ensures Charged(d, now, PolicyResult(Ended(d, now, i, status, Some(code)), now, i, i + 1, code))
  {
    var d1 := Ended(d, now, i, status, Some(code));
    PolicyCharges(d1, now, i, code);
    ChargedAlike(d, d1, now, PolicyResult(d1, now, i, i + 1, code));
  }

  lemma ExpireCharges(d: Db, now: int, i: nat)
    requires d.run.cfg.snapshot && Executing(d, i) && i == |d.attempts| - 1 && d.attempts[i].leaseExpiresAt <= now
    ensures Charged(d, now, ExpireTx(d, now, d.run, i).GetOr(d))
  {
    ExpireCommits(d, now, d.run, i);
    OpenCharges(d, now, i, AttemptStatus.LeaseExpired, WorkerLost);
  }

  lemma SucceedCharges(d: Db, now: int, ttl: nat, i: nat, outcome: Outcome)
    requires d.run.cfg.snapshot && Executing(d, i) && i == |d.attempts| - 1 && d.approval.None? && MaySucceed(d, now, i)
    ensures Charged(d, now, Apply(d, now, ttl, Succeed(i, outcome)))
  {
    SucceedCommits(d, now, d.run, i, outcome);
    Pow2Grows(0, i);
  }

  lemma ControlCharges(d: Db, now: int, ttl: nat, op: Op)
    requires op.PauseRun? || op.CancelRun?
    requires d.run.status.Running? && |d.attempts| >= 1 && Apply(d, now, ttl, op) != d
    ensures Charged(d, now, Apply(d, now, ttl, op))
  {
    Pow2Grows(0, |d.attempts| - 1);
  }

  /** Whichever way the run leaves RUNNING, the open interval is charged exactly then. */
  lemma ExitKeepsTime(s: Sys, op: Op)
    requires JointOk(s.d) && TimeOk(s) && s.d.run.cfg.snapshot && s.d.run.status.Running?
    requires op.Fail? || op.Expire? || op.Succeed? || op.PauseRun? || op.CancelRun?
    ensures TimeOk(Timed(s, op))
  {
    var d := s.d;
    var n := |d.attempts| - 1;
    var e := Apply(d, s.now, s.ttl, op);
    ChargedKeepsTime(s, e);
    match op
    case Fail(i, code, outcome) =>
      if AttemptRunning(d, i) { FailCharges(d, s.now, i, code, outcome); } else { assert e == d; }
    case Expire(i) =>
      if AttemptRunning(d, i) && d.attempts[i].leaseExpiresAt <= s.now { ExpireCharges(d, s.now, i); }
      else { assert e == d; }
    case Succeed(i, outcome) =>
      if MaySucceed(d, s.now, i) { SucceedCharges(d, s.now, s.ttl, i, outcome); } else { assert e == d; }
    case _ =>
      if e != d { ControlCharges(d, s.now, s.ttl, op); }
  }

  predicate Exits(op: Op) { op.Fail? || op.Expire? || op.Succeed? || op.PauseRun? || op.CancelRun? }

  /** Nothing that the time account reads has changed; neither has the lease, unless renewed. */
  predicate SameTime(d: Db, e: Db, op: Op) {
    && e.run.cfg == d.run.cfg && |e.attempts| == |d.attempts| && e.decisions == d.decisions
    && e.run.activeStartedAt == d.run.activeStartedAt && e.run.usedSeconds == d.run.usedSeconds
    && (e.run.status.Running? <==> d.run.status.Running?)
    && (d.run.status.Running? && !op.Beat? ==> e.attempts == d.attempts)
  }

  lemma QuietKeepsTime(d: Db, now: int, ttl: nat, op: Op)
    requires JointOk(d) && d.run.cfg.snapshot && (d.run.activeStartedAt.Some? <==> d.run.status.Running?)
    requires !op.Claim? && !op.Deliver? && !Exits(op)
    ensures SameTime(d, Apply(d, now, ttl, op), op)
  {
  }

  /** An exit that finds no running attempt changes nothing about time. */
  lemma IdleExitKeepsTime(d: Db, now: int, ttl: nat, op: Op)
    requires AttemptsCoupled(d) && d.run.cfg.snapshot && !d.run.status.Running? && d.run.activeStartedAt.None?
    requires Exits(op)
    ensures SameTime(d, Apply(d, now, ttl, op), op)
  {
    match op
    case CancelRun =>
    case Fail(i, _, _) => assert !AttemptRunning(d, i);
    case Expire(i) => assert !AttemptRunning(d, i);
    case Succeed(i, _) => assert !AttemptRunning(d, i);
    case PauseRun(i, _, _, _) => assert !AttemptRunning(d, i);
  }

  lemma OtherKeepsTime(d: Db, now: int, ttl: nat, op: Op)
    requires JointOk(d) && d.run.cfg.snapshot && (d.run.activeStartedAt.Some? <==> d.run.status.Running?)
    requires !op.Claim? && !(d.run.status.Running? && Exits(op))
    ensures SameTime(d, Apply(d, now, ttl, op), op)
  {
    if op.Deliver? {
      DeliveryStepKeepsCoupling(d, now, op.op);
    } else if Exits(op) {
      IdleExitKeepsTime(d, now, ttl, op);
    } else {
      QuietKeepsTime(d, now, ttl, op);
    }
  }

  /** A claim either changes nothing or opens an interval now, with a fresh lease. */
  lemma ClaimOpens(d: Db, now: int, ttl: nat, no: pos, token: nat)
    requires d.run.cfg.snapshot && (d.run.activeStartedAt.Some? <==> d.run.status.Running?)
    ensures var e := Apply(d, now, ttl, Claim(no, token));
      || e == d
      || (&& d.run.status.Dispatched? && e.run.status.Running? && e.run.cfg == d.run.cfg
          && e.decisions == d.decisions && |e.attempts| == |d.attempts| + 1
          && e.run.activeStartedAt == Some(now) && e.run.usedSeconds == d.run.usedSeconds
          && e.attempts[|d.attempts|].leaseExpiresAt == now + ttl)
  {
  }

  lemma ConfigNeverChanges(d: Db, now: int, ttl: nat, op: Op)
    requires JointOk(d)
    ensures Apply(d, now, ttl, op).run.cfg == d.run.cfg
  {
    if op.Fail? || op.Expire? {
      FailureKeepsLedgerRows(d, now, ttl, op);
    } else if !op.ReserveCall? && !op.SettleUsage? {
      OtherKeepsLedgerRows(d, now, ttl, op);
    }
  }

  /** What TimeOk says is about nothing but the columns that SameTime compares. */
  lemma SameTimeKeepsTime(s: Sys, e: Db, op: Op, later: int)
    requires TimeOk(s) && s.now <= later && s.d.run.cfg.snapshot && SameTime(s.d, e, op)
    ensures TimeOk(Sys(e, later, s.ttl, Observe(s.clock, s.d, e, s.now)))
  {
  }

  lemma StepKeepsTime(s: Sys, op: Op)
    requires JointOk(s.d) && TimeOk(s)
    ensures TimeOk(Next(s, op))
  {
    ConfigNeverChanges(s.d, s.now, s.ttl, op);
    if s.d.run.cfg.snapshot {
      if op.Claim? {
        ClaimOpens(s.d, s.now, s.ttl, op.no, op.token);
      } else if s.d.run.status.Running? && Exits(op) {
        ExitKeepsTime(s, op);
      } else {
        OtherKeepsTime(s.d, s.now, s.ttl, op);
        SameTimeKeepsTime(s, Apply(s.d, s.now, s.ttl, op), op, Next(s, op).now);
      }
    }
  }

  lemma StepKeepsLease(s: Sys, op: Op)
    requires JointOk(s.d) && OutboxOk(s.d) && GateOk(s.d) && TimeOk(s) && LeaseOk(s)
    ensures LeaseOk(Next(s, op))
  {
    ConfigNeverChanges(s.d, s.now, s.ttl, op);
    if s.d.run.cfg.snapshot {
      if op.Claim? {
        ClaimOpens(s.d, s.now, s.ttl, op.no, op.token);
      } else if s.d.run.status.Running? && Exits(op) {
        ExitLeavesRunning(s.d, s.now, s.ttl, op);
      } else {
        OtherKeepsTime(s.d, s.now, s.ttl, op);
      }
    }
  }

  lemma ExitLeavesRunning(d: Db, now: int, ttl: nat, op: Op)
    requires JointOk(d) && d.run.cfg.snapshot && d.run.status.Running? && Exits(op)
    ensures var e := Apply(d, now, ttl, op); e == d || !e.run.status.Running?
  {
    match op
    case Fail(i, code, outcome) => if AttemptRunning(d, i) { FailCharges(d, now, i, code, outcome); }
    case Expire(i) =>
      if AttemptRunning(d, i) && d.attempts[i].leaseExpiresAt <= now { ExpireCharges(d, now, i); }
    case Succeed(i, outcome) => if MaySucceed(d, now, i) { SucceedCharges(d, now, ttl, i, outcome); }
    case _ =>
  }
}
