/** What every transaction keeps, whoever runs it and in whatever order. */
module RunInvariant {
  import opened Wrappers
  import opened Rows
  import opened PolicyEngine
  import opened EventLog
  import opened RunProtocol
  import opened DeliveryRows
  import opened RunSystem

  // ---- Run, attempts, task and approval ----

  ghost predicate TaskCoupled(d: Db) {
    match d.run.status
    case Dispatched => d.task.status.Queued? || d.task.status.Running?
    case Running => d.task.status.Running?
    case Interrupted => d.task.status.NeedsAttention?
    case Failed => d.task.status.Failed?
    case Cancelled => d.task.status.Cancelled?
    case Succeeded => true  // DeliveryCoupled fixes the task of a finished run
    case _ => false
  }

  /** At most the newest attempt is running, and it is exactly when the run is. */
  ghost predicate AttemptsCoupled(d: Db) {
    && |d.attempts| <= d.run.cfg.maxAttempts
    && (d.run.status.Running? ==> d.attempts != [])
    && (forall i :: 0 <= i < |d.attempts| ==>
          && d.attempts[i].no == i + 1
          && !d.attempts[i].status.Claimed?
          && (d.attempts[i].status.Running? <==> d.run.status.Running? && i == |d.attempts| - 1))
  }

  ghost predicate JointOk(d: Db) {
    && ValidConfig(d.run.cfg)
    && AttemptsCoupled(d)
    && TaskCoupled(d)
    && (d.approval.Some? <==> d.run.status.Succeeded?)
    && DeliveryCoupled(d)
  }

  // ---- Log and outbox ----

  /** The log is gapless and its status events lead from creation to `status`. */
  ghost predicate Tells(cfg: Config, log: Log, status: RunStatus) {
    Gapless(log) && StatusTrail(CreationStatus(cfg), log.rows) == Some(status)
  }

  ghost predicate LogOk(d: Db) { Tells(d.run.cfg, d.log, d.run.status) }

  /** The k-th command ever sent asks for attempt k; a dispatched run has one that is unclaimed. */
  ghost predicate OutboxOk(d: Db) {
    && (forall k :: 0 <= k < |d.outbox| ==> d.outbox[k].command.attemptNo == k + 1)
    && |d.attempts| <= |d.outbox| <= |d.attempts| + 1
    && |d.outbox| <= d.run.cfg.maxAttempts
    && (d.run.status.Dispatched? ==> |d.outbox| == |d.attempts| + 1)
    && (|d.outbox| == |d.attempts| + 1 ==> d.run.status.Dispatched? || d.run.status.Cancelled?)
  }

  // ---- Tokens ----

  function Overrun(calls: seq<Call>): nat {
    if calls == [] then 0
    else
      var c := calls[|calls| - 1];
      Overrun(calls[..|calls| - 1]) + (if c.used.Some? && c.used.value > c.reserved then c.used.value - c.reserved else 0)
  }

  ghost predicate LedgerOk(d: Db) {
    && (forall i, j :: 0 <= i < j < |d.calls| ==> d.calls[i].id != d.calls[j].id)
    && (forall i :: 0 <= i < |d.calls| ==> (d.calls[i].status.Settled? <==> d.calls[i].used.Some?))
    && LedgerTotal(d.calls) <= d.run.cfg.budgetTokens + Overrun(d.calls)
    && (d.run.cfg.snapshot && AllSettled(d.calls) ==> d.run.usedTokens == LedgerTotal(d.calls))
  }

  /** A snapshot run is only ever sent out with nothing unresolved and budget left. */
  ghost predicate GateOk(d: Db) {
    && (d.run.cfg.snapshot && d.run.status.Succeeded? ==> AllSettled(d.calls))
    && (d.run.cfg.snapshot && d.run.status.Dispatched? && d.outbox != [] ==>
          && AllSettled(d.calls)
          && d.run.usedTokens < d.run.cfg.budgetTokens
          && d.run.usedSeconds < d.run.cfg.budgetSeconds
          && var command := d.outbox[|d.outbox| - 1].command;
            && command.remainingTokens == d.run.cfg.budgetTokens - d.run.usedTokens
            && command.remainingSeconds == d.run.cfg.budgetSeconds - d.run.usedSeconds)
  }

  // ---- Time ----

  /** Seconds of backoff charged to the run, from the recorded decisions. */
  function ChargedBackoff(decisions: seq<Decision>): nat {
    if decisions == [] then 0
    else
      var last := decisions[|decisions| - 1];
      ChargedBackoff(decisions[..|decisions| - 1]) + BackoffMs(last.code, last.attempt + 1, last.action) / 1000
  }

  function EndedAttempts(d: Db): int { |d.attempts| - if d.run.status.Running? then 1 else 0 }

  function Min(a: int, b: int): int { if a < b then a else b }

  ghost predicate TimeOk(s: Sys) {
    s.d.run.cfg.snapshot ==>
      && (s.d.run.activeStartedAt.Some? <==> s.d.run.status.Running?)
      && (s.d.run.status.Running? ==> s.d.run.activeStartedAt.value == s.clock.runningSince <= s.now)
      && s.d.run.usedSeconds == s.clock.roundedSeconds + ChargedBackoff(s.d.decisions)
      && 0 <= s.clock.activeMs <= 1000 * s.clock.roundedSeconds <= s.clock.activeMs + 999 * EndedAttempts(s.d)
      && 0 <= EndedAttempts(s.d)
      && ChargedBackoff(s.d.decisions) <= 30 * (Pow2(NonNegative(Min(EndedAttempts(s.d), s.d.run.cfg.maxAttempts - 1))) - 1)
  }

  /** The lease of the running attempt was last extended while time was left. */
  ghost predicate LeaseOk(s: Sys) {
    s.d.run.cfg.snapshot && s.d.run.status.Running? && s.d.attempts != [] && s.d.run.activeStartedAt.Some? ==>
      s.d.run.usedSeconds * 1000
        + (s.d.attempts[|s.d.attempts| - 1].leaseExpiresAt - s.ttl - s.d.run.activeStartedAt.value)
        < s.d.run.cfg.budgetSeconds * 1000
  }

  ghost predicate Inv(s: Sys) {
    && JointOk(s.d) && LogOk(s.d) && OutboxOk(s.d) && LedgerOk(s.d) && GateOk(s.d) && TimeOk(s) && LeaseOk(s)
  }
}
