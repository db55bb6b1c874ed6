/**
 What becomes of a run whose attempt fails, by the failure and by what is left: the promise of the
 recovery policy, for every reachable state.
 */
module Recovery {
  import opened Wrappers
  import opened Rows
  import opened PolicyEngine
  import opened RunProtocol
  import opened RunSystem
  import opened RunInvariant
  import opened JointProof
  import opened LogProof
  import opened RunTheorems
  import Steps

  /** The work so far is good: go on from the newest checkpoint. */
  const GO_ON: set<FailureCode> := {
    ModelRateLimit, ModelApiError, ModelBadOutput, ToolExecError, SandboxCrashed, WorkerLost,
    VerifyStaticFailed, VerifyTargetTestsFailed, VerifyRegressionFailed}

  /** The work so far is no good: start over. */
  const START_OVER: set<FailureCode> := {
    SandboxStartFailed, PatchApplyFailed, AgentStuck, VerifyScopeViolation, VerifyTestTampering, VerifyPatchMalformed}

  /** A budget is used up: a person has to decide. */
  const ASK: set<FailureCode> := {BudgetTokensExceeded, BudgetTimeExceeded, BudgetTurnsExceeded}

  /** A person has decided. */
  const GIVE_UP: set<FailureCode> := {HumanRejected, CancelledByUser}

  /** A patch that breaks the rules; the last attempt ends in failure then. */
  const RULES: set<FailureCode> := {VerifyScopeViolation, VerifyTestTampering, VerifyPatchMalformed}

  /** The codes worth waiting for. */
  const WAIT: set<FailureCode> := {ModelRateLimit, ModelApiError}

  /** What is to be done after attempt number `no` of at most `max` has failed. */
  function Remedy(code: FailureCode, no: pos, max: nat): PolicyAction {
    if code in GIVE_UP || (no >= max && code in RULES) then Abort
    else if no >= max || code in ASK then EscalateHuman
    else if code in GO_ON then Resume
    else RestartAttempt
  }

  lemma EveryCodeHasItsKind(code: FailureCode)
    ensures code in GO_ON + START_OVER + ASK + GIVE_UP
    ensures !(code in GO_ON && code in START_OVER) && RULES <= START_OVER && WAIT <= GO_ON
    ensures code in ASK + GIVE_UP ==> code !in GO_ON + START_OVER
    ensures !(code in ASK && code in GIVE_UP)
  {
  }

  /** The table says what the kind of the failure calls for. */
  lemma TableIsRemedy(code: FailureCode, no: pos, max: nat)
    ensures ActionFor(code, no, max) == Remedy(code, no, max)
  {
  }

  /** Half a minute after the first attempt, doubled after every further one, for the codes worth waiting for. */
  lemma BackoffDoubles(code: FailureCode, no: pos)
    ensures code in WAIT ==>
      BackoffMs(code, 1, Resume) == 30_000 && BackoffMs(code, no + 1, Resume) == 2 * BackoffMs(code, no, Resume)
    ensures code !in WAIT ==> BackoffMs(code, no, Resume) == 0
    ensures BackoffMs(code, no, RestartAttempt) == 0
  {
  }

  // ---- What becomes of the run ----

  function OpenMs(d: Db, now: int): int { if d.run.activeStartedAt.Some? then now - d.run.activeStartedAt.value else 0 }

  /** With this much waiting added, not a whole second of the time budget is left. */
  predicate TimeSpent(d: Db, now: int, waitMs: nat) {
    1000 * d.run.usedSeconds + OpenMs(d, now) + waitMs > 1000 * (d.run.cfg.budgetSeconds - 1)
  }

  predicate UsageMissing(d: Db) { exists k :: 0 <= k < |d.calls| && d.calls[k].used.None? }

  predicate BudgetSpent(d: Db, now: int) {
    || d.run.usedTokens >= d.run.cfg.budgetTokens || TimeSpent(d, now, 0)
    || (d.run.cfg.deadlineAt.Some? && d.run.cfg.deadlineAt.value <= now)
  }

  function RemedyOf(d: Db, code: FailureCode, no: pos): PolicyAction {
    if d.run.cfg.recoveryDisabled then Abort else Remedy(code, no, d.run.cfg.maxAttempts)
  }

  function WaitMs(code: FailureCode, no: pos, action: PolicyAction): nat {
    if action.Resume? && code in WAIT then 30_000 * Pow2(no - 1) else 0
  }

  predicate Waits(e: Db, reason: Reason) {
    e.run.status.Interrupted? && e.task.status.NeedsAttention? && e.task.attentionReason == Some(reason)
  }

  /** What the policy makes of a failure that it decides on. */
  ghost predicate Decided(d: Db, now: int, e: Db, no: pos, code: FailureCode) {
    var action := RemedyOf(d, code, no);
    && e.decisions == d.decisions + [Decision(no - 1, code, action)]
    && (if action.Abort? then e.run.status.Failed? && e.task.status.Failed?
        else if action.EscalateHuman? then Waits(e, FailedWith(code))
        else if d.run.cfg.snapshot && TimeSpent(d, now, WaitMs(code, no, action)) then Waits(e, Said("BUDGET_EXHAUSTED"))
        else e.run.status.Dispatched? && e.task == d.task)
  }

  /** What becomes of a run with rows `d` whose attempt number `no` has failed. */
  ghost predicate EndsIn(d: Db, now: int, e: Db, no: pos, code: FailureCode) {
    if d.run.cfg.snapshot && UsageMissing(d) then Waits(e, Said("MODEL_USAGE_UNKNOWN")) && e.decisions == d.decisions
    else if d.run.cfg.snapshot && BudgetSpent(d, now) then Waits(e, Said("BUDGET_EXHAUSTED")) && e.decisions == d.decisions
    else Decided(d, now, e, no, code)
  }

  /** `d2` is `d` with its attempt over and its run interrupted; the interval may be charged already. */
  ghost predicate Stopped(d: Db, now: int, d2: Db) {
    && d2.run.status.Interrupted? && d2.run.cfg == d.run.cfg && d2.calls == d.calls && d2.task == d.task
    && d2.decisions == d.decisions
    && (d.run.cfg.snapshot ==>
          && d2.run.usedTokens == d.run.usedTokens
          && ChargeActive(d2.run, now).usedSeconds == ChargeActive(d.run, now).usedSeconds)
  }

  lemma SettledIsKnown(d: Db)
    requires LedgerOk(d)
    ensures Unresolved(d) <==> UsageMissing(d)
  {
    if Unresolved(d) {
      var k :| 0 <= k < |d.calls| && !d.calls[k].status.Settled?;
      assert d.calls[k].used.None?;
    }
  }

  /** Rounding up reaches the budget exactly when less than a second is left. */
  lemma RoundedUp(used: int, ms: int, waitMs: int, budget: int)
    requires waitMs % 1000 == 0
    ensures used + CeilSeconds(ms) + CeilSeconds(waitMs) >= budget <==> 1000 * used + ms + waitMs > 1000 * (budget - 1)
  {
  }

  /** The policy stops before it decides exactly if usage is missing or a budget is spent. */
  lemma StopsAlike(d: Db, now: int, d2: Db)
    requires LedgerOk(d) && Stopped(d, now, d2)
    ensures var d0 := IntervalClosed(d2, now);
      && d0 == d2.(run := d0.run) && d0.run.cfg == d.run.cfg && d0.run.status.Interrupted?
      && (d.run.cfg.snapshot ==>
            && (Unresolved(d0) <==> UsageMissing(d)) && (Exhausted(d0.run, now) <==> BudgetSpent(d, now))
            && d0.run.usedSeconds == d.run.usedSeconds + CeilSeconds(OpenMs(d, now)))
  {
    SettledIsKnown(d);
    RoundedUp(d.run.usedSeconds, OpenMs(d, now), 0, d.run.cfg.budgetSeconds);
  }

  lemma SendsAlike(d: Db, now: int, d1: Db, no: pos, action: PolicyAction, waitMs: nat)
    requires waitMs % 1000 == 0 && d1.run.cfg == d.run.cfg
    requires d.run.cfg.snapshot ==> d1.run.usedSeconds == d.run.usedSeconds + CeilSeconds(OpenMs(d, now))
    requires d1.run.status.Interrupted?
    ensures var e := Redispatched(d1, now, no, action, waitMs);
      && e.decisions == d1.decisions
      && (if d.run.cfg.snapshot && TimeSpent(d, now, waitMs) then Waits(e, Said("BUDGET_EXHAUSTED"))
          else e.run.status.Dispatched? && e.task == d1.task)
  {
    RoundedUp(d.run.usedSeconds, OpenMs(d, now), waitMs, d.run.cfg.budgetSeconds);
  }

  lemma WholeSeconds(n: nat)
    ensures 30_000 * n % 1000 == 0
  {
  }

  lemma WaitIsBackoff(code: FailureCode, no: pos, action: PolicyAction)
    ensures BackoffMs(code, no, action) == WaitMs(code, no, action) && WaitMs(code, no, action) % 1000 == 0
  {
    var half: nat := Pow2(no - 1);
    WholeSeconds(half);
  }

  lemma DecidesAlike(d: Db, now: int, d0: Db, i: nat, code: FailureCode)
    requires d0.run.cfg == d.run.cfg && d0.run.status.Interrupted? && d0.task == d.task && d0.decisions == d.decisions
    requires d.run.cfg.snapshot ==> d0.run.usedSeconds == d.run.usedSeconds + CeilSeconds(OpenMs(d, now))
    ensures var action := RemedyOf(d, code, i + 1);
      var d1 := d0.(decisions := d0.decisions + [Decision(i, code, action)]);
      var e := if Redispatches(action) then Redispatched(d1, now, i + 1, action, BackoffMs(code, i + 1, action))
               else if action.Abort? then Aborted(d1) else Attention(d1, FailedWith(code));
      Decided(d, now, e, i + 1, code)
  {
    var action := RemedyOf(d, code, i + 1);
    WaitIsBackoff(code, i + 1, action);
    if Redispatches(action) {
      SendsAlike(d, now, d0.(decisions := d0.decisions + [Decision(i, code, action)]), i + 1, action,
                 WaitMs(code, i + 1, action));
    }
  }

  lemma PolicyEndsIn(d: Db, now: int, d2: Db, i: nat, code: FailureCode)
    ensures LedgerOk(d) && Stopped(d, now, d2) ==> EndsIn(d, now, PolicyResult(d2, now, i, i + 1, code), i + 1, code)
  {
    if LedgerOk(d) && Stopped(d, now, d2) {
      StopsAlike(d, now, d2);
      TableIsRemedy(code, i + 1, d.run.cfg.maxAttempts);
      DecidesAlike(d, now, IntervalClosed(d2, now), i, code);
    }
  }

  lemma FailEndsIn(d: Db, now: int, i: nat, code: FailureCode, outcome: Outcome)
    requires Executing(d, i) && LedgerOk(d)
    ensures EndsIn(d, now, FailTx(d, now, d.run, i, code, outcome).GetOr(d), i + 1, code)
  {
    FailCommits(d, now, d.run, i, code, outcome);
    PolicyEndsIn(d, now, Ended(PersistExtras(d, now, d.run, i, outcome), now, i, AttemptStatus.Failed, Some(code)), i, code);
  }

  lemma ExpireEndsIn(d: Db, now: int, i: nat)
    requires Executing(d, i) && LedgerOk(d) && d.attempts[i].leaseExpiresAt <= now
    ensures EndsIn(d, now, ExpireTx(d, now, d.run, i).GetOr(d), i + 1, WorkerLost)
  {
    ExpireCommits(d, now, d.run, i);
    PolicyEndsIn(d, now, Ended(d, now, i, AttemptStatus.LeaseExpired, Some(WorkerLost)), i, WorkerLost);
  }

  /**
   What a failure comes to, in every reachable state: nothing if its attempt does not run; otherwise the
   attempt is over with its code, its patch is kept, and the run waits for a person, has failed or is
   sent out again, by what is missing or spent, by the kind of the failure and by the attempts left.
   */
  lemma FailureOutcome(s: Sys, i: nat, code: FailureCode, outcome: Outcome)
    requires Reachable(s)
    ensures var d, e := s.d, Next(s, Fail(i, code, outcome)).d;
      if Steps.Runs(d, i)
      then EndsIn(d, s.now, e, i + 1, code) && FailureEnd(d, e, Fail(i, code, outcome))
      else e == d
  {
    EveryRunKeepsInv(s);
    if Steps.Runs(s.d, i) {
      FailEnds(s.d, s.now, i, code, outcome);
      FailEndsIn(s.d, s.now, i, code, outcome);
    }
  }

  /** A lease that has run out ends its attempt in the same way, as a lost worker. */
  lemma ExpiryOutcome(s: Sys, i: nat)
    requires Reachable(s)
    ensures var d, e := s.d, Next(s, Expire(i)).d;
      if Steps.Runs(d, i) && d.attempts[i].leaseExpiresAt <= s.now
      then EndsIn(d, s.now, e, i + 1, WorkerLost) && FailureEnd(d, e, Expire(i))
      else e == d
  {
    EveryRunKeepsInv(s);
    if Steps.Runs(s.d, i) && s.d.attempts[i].leaseExpiresAt <= s.now {
      ExpireEnds(s.d, s.now, i);
      ExpireEndsIn(s.d, s.now, i);
    }
  }
}
