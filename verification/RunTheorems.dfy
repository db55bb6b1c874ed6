/** What holds of every run: of every state it can reach and of every step it can take. */
module RunTheorems {
  import opened Rows
  import opened PolicyEngine
  import opened RunProtocol
  import opened RunSystem
  import opened RunInvariant
  import opened JointProof
  import opened LogProof
  import opened LedgerProof
  import opened TimeProof

  // ---- The invariant, over every run ----

  lemma EmptyLogTells(cfg: Config)
    ensures Tells(cfg, Log(0, []), CreationStatus(cfg))
  {
  }

  lemma CreatedTells(cfg: Config, now: int)
    ensures LogOk(RunSystem.Created(cfg, now))
  {
    EmptyLogTells(cfg);
    if !cfg.snapshot {
      EmitStatus(cfg, Log(0, []), RunStatus.Pending, RunStatus.Dispatched);
    }
  }

  lemma CreatedFits(cfg: Config, now: int)
    requires ValidConfig(cfg)
    ensures JointOk(RunSystem.Created(cfg, now)) && OutboxOk(RunSystem.Created(cfg, now))
    ensures LedgerOk(RunSystem.Created(cfg, now)) && GateOk(RunSystem.Created(cfg, now))
  {
  }

  lemma CreatedInTime(cfg: Config, now: int, ttl: nat)
    ensures TimeOk(Start(cfg, now, ttl)) && LeaseOk(Start(cfg, now, ttl))
  {
  }

  lemma CreationHolds(cfg: Config, now: int, ttl: nat)
    requires ValidConfig(cfg)
    ensures Inv(Start(cfg, now, ttl))
  {
    CreatedTells(cfg, now);
    CreatedFits(cfg, now);
    CreatedInTime(cfg, now, ttl);
  }

  lemma StepKeepsInv(s: Sys, op: Op)
    requires Inv(s)
    ensures Inv(Next(s, op))
  {
    StepKeepsJoint(s.d, s.now, s.ttl, op);
    StepKeepsLog(s.d, s.now, s.ttl, op);
    StepKeepsLedger(s.d, s.now, s.ttl, op);
    StepKeepsGate(s.d, s.now, s.ttl, op);
    StepKeepsTime(s, op);
    StepKeepsLease(s, op);
  }

  lemma {:induction false} ExecKeepsInv(s: Sys, ops: seq<Op>)
    requires Inv(s)
    ensures Inv(Exec(s, ops))
    decreases |ops|
  {
    if ops != [] {
      StepKeepsInv(s, ops[0]);
      ExecKeepsInv(Next(s, ops[0]), ops[1..]);
    }
  }

  /** `s` is a state of some run: created somehow, after any transactions by anyone. */
  ghost predicate Reachable(s: Sys) {
    exists cfg: Config, now: int, ttl: nat, ops: seq<Op> ::
      ValidConfig(cfg) && s == Exec(Start(cfg, now, ttl), ops)
  }

  /** Every state of every run satisfies the invariant. */
  lemma EveryRunKeepsInv(s: Sys)
    requires Reachable(s)
    ensures Inv(s)
  {
    var cfg: Config, now: int, ttl: nat, ops: seq<Op> :|
      ValidConfig(cfg) && s == Exec(Start(cfg, now, ttl), ops);
    CreationHolds(cfg, now, ttl);
    ExecKeepsInv(Start(cfg, now, ttl), ops);
  }

  lemma ReachableGoesOn(s: Sys, more: seq<Op>)
    requires Reachable(s)
    ensures Reachable(Exec(s, more))
  {
    var cfg: Config, now: int, ttl: nat, ops: seq<Op> :|
      ValidConfig(cfg) && s == Exec(Start(cfg, now, ttl), ops);
    ExecAppend(Start(cfg, now, ttl), ops, more);
  }

  lemma ReachableNext(s: Sys, op: Op)
    requires Reachable(s)
    ensures Reachable(Next(s, op))
  {
    ReachableGoesOn(s, [op]);
    ExecOne(s, op);
  }

  /**
   Run, attempts, task and approval fit together whenever a transaction has committed: a running run has
   exactly one running attempt, the newest, and a running task; a waiting, failed or cancelled run
   has the task to match; an approval exists exactly for a run that succeeded.
   */
  lemma RowsFitTogether(s: Sys)
    requires Reachable(s)
    ensures forall i :: 0 <= i < |s.d.attempts| ==>
      && s.d.attempts[i].no == i + 1
      && (s.d.attempts[i].status.Running? <==> s.d.run.status.Running? && i == |s.d.attempts| - 1)
    ensures s.d.run.status.Running? ==> s.d.attempts != [] && s.d.task.status.Running?
    ensures s.d.run.status.Dispatched? ==> s.d.task.status.Queued? || s.d.task.status.Running?
    ensures s.d.run.status.Interrupted? ==> s.d.task.status.NeedsAttention?
    ensures s.d.run.status.Failed? ==> s.d.task.status.Failed?
    ensures s.d.run.status.Cancelled? ==> s.d.task.status.Cancelled?
    ensures s.d.approval.Some? <==> s.d.run.status.Succeeded?
    ensures !s.d.run.status.Pending? && !s.d.run.status.Verifying? && !s.d.run.status.Recovering?
  {
    EveryRunKeepsInv(s);
  }

  // ---- Tokens ----

  lemma {:induction false} NoOverrun(calls: seq<Call>)
    requires forall i :: 0 <= i < |calls| ==> Charge(calls[i]) <= calls[i].reserved
    ensures Overrun(calls) == 0
  {
    if calls != [] {
      NoOverrun(calls[..|calls| - 1]);
    }
  }

  /**
   Token safety of the ledger: known usage plus open reservations exceed the budget by no more than
   what calls used beyond their own reservation; not at all if every call kept to it.
   */
  lemma TokensStayInBudget(s: Sys)
    requires Reachable(s)
    ensures LedgerTotal(s.d.calls) <= s.d.run.cfg.budgetTokens + Overrun(s.d.calls)
    ensures (forall i :: 0 <= i < |s.d.calls| ==> Charge(s.d.calls[i]) <= s.d.calls[i].reserved)
              ==> LedgerTotal(s.d.calls) <= s.d.run.cfg.budgetTokens
  {
    EveryRunKeepsInv(s);
    if forall i :: 0 <= i < |s.d.calls| ==> Charge(s.d.calls[i]) <= s.d.calls[i].reserved {
      NoOverrun(s.d.calls);
    }
  }

  // ---- Time ----

  /** The part of the current RUNNING interval that is not charged yet. */
  function OpenMs(s: Sys): int { if s.d.run.status.Running? then s.now - s.clock.runningSince else 0 }

  /** How long the run has been RUNNING in all. */
  function RunningMs(s: Sys): int { s.clock.activeMs + OpenMs(s) }

  /** Largest backoff, in seconds, that a run with this attempt limit can be charged in all. */
  function MaxBackoff(maxAttempts: nat): nat { if maxAttempts == 0 then 0 else 30 * (Pow2(maxAttempts - 1) - 1) }

  lemma BoundsFromTime(s: Sys)
    requires s.d.run.cfg.snapshot && s.d.run.cfg.maxAttempts >= 1 && TimeOk(s)
    ensures RunningMs(s) <= 1000 * s.d.run.usedSeconds + OpenMs(s)
         <= RunningMs(s) + 1000 * |s.d.attempts| + 1000 * MaxBackoff(s.d.run.cfg.maxAttempts)
  {
    var max := s.d.run.cfg.maxAttempts;
    Pow2Grows(NonNegative(Min(EndedAttempts(s.d), max - 1)), max - 1);
  }

  /**
   Conservation of time for a snapshot run: what is charged is the time it was RUNNING, each interval
   rounded up once, plus the backoffs of the recorded decisions; so charge and open interval together
   lie between the running time and the running time plus a second per attempt plus the largest
   backoffs that the attempt limit allows.
   */
  lemma TimeIsConserved(s: Sys)
    requires Reachable(s) && s.d.run.cfg.snapshot
    ensures s.d.run.activeStartedAt.Some? <==> s.d.run.status.Running?
    ensures s.d.run.usedSeconds == s.clock.roundedSeconds + ChargedBackoff(s.d.decisions)
    ensures RunningMs(s) <= 1000 * s.d.run.usedSeconds + OpenMs(s)
         <= RunningMs(s) + 1000 * |s.d.attempts| + 1000 * MaxBackoff(s.d.run.cfg.maxAttempts)
  {
    EveryRunKeepsInv(s);
    BoundsFromTime(s);
  }

  /** While the lease of a snapshot run is live, it is less than one lease over its time budget. */
  lemma LiveLeaseBoundsTime(s: Sys, i: nat)
    requires Reachable(s) && s.d.run.cfg.snapshot
    requires AttemptRunning(s.d, i) && s.d.attempts[i].leaseExpiresAt > s.now
    ensures 1000 * s.d.run.usedSeconds + OpenMs(s) < 1000 * s.d.run.cfg.budgetSeconds + s.ttl
  {
    EveryRunKeepsInv(s);
  }

  /** No model call is reserved once the time budget is used up. */
  lemma NoCallAfterTimeIsUp(s: Sys, i: nat, token: nat, id: nat, amount: nat)
    requires Reachable(s) && s.d.run.cfg.snapshot
    requires 1000 * s.d.run.usedSeconds + OpenMs(s) >= 1000 * s.d.run.cfg.budgetSeconds
    ensures Next(s, ReserveCall(i, token, id, amount)).d == s.d
  {
    EveryRunKeepsInv(s);
  }

  // ---- Dispatch ----

  /** Whenever a run is dispatched, its newest command asks for the next attempt within the limit. */
  lemma DispatchedHasCommand(s: Sys)
    requires Reachable(s) && s.d.run.status.Dispatched?
    ensures s.d.outbox != []
    ensures s.d.outbox[|s.d.outbox| - 1].command.attemptNo == |s.d.attempts| + 1 <= s.d.run.cfg.maxAttempts
  {
    EveryRunKeepsInv(s);
  }

  /** Claiming that command with a fresh token starts the attempt. */
  lemma DispatchedIsClaimable(s: Sys, token: nat)
    requires Reachable(s) && s.d.run.status.Dispatched? && !HasToken(s.d.attempts, token)
    ensures var e := Next(s, Claim(|s.d.attempts| + 1, token)).d;
      e.run.status.Running? && AttemptRunning(e, |s.d.attempts|) && e.attempts[|s.d.attempts|].leaseToken == token
  {
    EveryRunKeepsInv(s);
    LatestIsCount(s.d.attempts);
  }

  /**
   The redispatch gate: a snapshot run waiting to be claimed has no unresolved model call, and its
   command carries exactly what is left of both budgets, both positive.
   */
  lemma RedispatchGate(s: Sys)
    requires Reachable(s) && s.d.run.cfg.snapshot && s.d.run.status.Dispatched?
    ensures AllSettled(s.d.calls) && s.d.run.usedTokens == LedgerTotal(s.d.calls)
    ensures s.d.outbox != []
    ensures var command := s.d.outbox[|s.d.outbox| - 1].command;
      && command.remainingTokens == s.d.run.cfg.budgetTokens - s.d.run.usedTokens > 0
      && command.remainingSeconds == s.d.run.cfg.budgetSeconds - s.d.run.usedSeconds > 0
  {
    EveryRunKeepsInv(s);
  }
}
