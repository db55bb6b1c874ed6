/**
 The transactions on a run, as functions from the rows at lock time to the rows at commit.

 A transaction that throws leaves the rows as they were, so a result of `None` means rollback.
 Where the service reads rows before it takes the lock, what it read is a parameter (`pre`): at
 lock time the rows may already be different.
 */
module RunProtocol {
  import opened Wrappers
  import opened Rows
  import opened StateMachine
  import opened PolicyEngine
  import opened EventLog

  // ---- Columns computed from rows ----

  /** Seconds charged for an interval: rounded up. */
  function CeilSeconds(ms: int): int { (ms + 999) / 1000 }

  function ActiveMs(run: Run, now: int): int {
    if run.activeStartedAt.Some? then now - run.activeStartedAt.value else 0
  }

  /** Closes the open active interval, if any, and charges it. */
  function ChargeActive(run: Run, now: int): Run {
    run.(usedSeconds := run.usedSeconds + CeilSeconds(ActiveMs(run, now)), activeStartedAt := None)
  }

  function LatestNo(attempts: seq<Attempt>): nat {
    if attempts == [] then 0
    else
      var before := LatestNo(attempts[..|attempts| - 1]);
      var last := attempts[|attempts| - 1].no;
      if before < last then last else before
  }

  predicate HasNo(attempts: seq<Attempt>, no: pos) {
    exists i :: 0 <= i < |attempts| && attempts[i].no == no
  }

  predicate HasToken(attempts: seq<Attempt>, token: nat) {
    exists i :: 0 <= i < |attempts| && attempts[i].leaseToken == token
  }

  /** The row with this primary key, if there is one. */
  function FindCall(calls: seq<Call>, id: nat): (at: Option<nat>)
    ensures at.Some? ==> at.value < |calls| && calls[at.value].id == id
    ensures at.None? ==> forall i :: 0 <= i < |calls| ==> calls[i].id != id
  {
    if calls == [] then None
    else if calls[|calls| - 1].id == id then Some(|calls| - 1)
    else FindCall(calls[..|calls| - 1], id)
  }

  /** What one call costs the budget: its usage if known, otherwise all it reserved. */
  function Charge(c: Call): nat { c.used.GetOr(c.reserved) }

  function LedgerTotal(calls: seq<Call>): nat {
    if calls == [] then 0 else LedgerTotal(calls[..|calls| - 1]) + Charge(calls[|calls| - 1])
  }

  function AvailableBudget(limit: nat, calls: seq<Call>): nat {
    if limit > LedgerTotal(calls) then limit - LedgerTotal(calls) else 0
  }

  predicate AllSettled(calls: seq<Call>) {
    forall i :: 0 <= i < |calls| ==> calls[i].status.Settled?
  }

  function LatestCheckpoint(d: Db): Option<nat> {
    if d.checkpoints == [] then None else Some(|d.checkpoints| - 1)
  }

  function NonNegative(n: int): nat { if n > 0 then n else 0 }

  predicate DeadlinePassed(run: Run, now: int) {
    run.cfg.deadlineAt.Some? && run.cfg.deadlineAt.value <= now
  }

  // ---- Guards shared by the services ----

  predicate AttemptRunning(d: Db, i: nat) { i < |d.attempts| && d.attempts[i].status.Running? }

  /** The lease check of every worker request. */
  predicate LeaseHeld(d: Db, now: int, i: nat, token: nat) {
    && AttemptRunning(d, i)
    && d.attempts[i].leaseToken == token
    && d.attempts[i].leaseExpiresAt > now
    && (d.run.status.Running? || d.run.status.Verifying?)
  }

  predicate TimeLeft(d: Db, now: int) {
    && !DeadlinePassed(d.run, now)
    && (d.run.activeStartedAt.Some? ==>
          d.run.usedSeconds * 1000 + ActiveMs(d.run, now) < d.run.cfg.budgetSeconds * 1000)
  }

  function EndAttempt(d: Db, i: nat, status: AttemptStatus, code: Option<FailureCode>): Db
    requires i < |d.attempts|
  {
    d.(attempts := d.attempts[i := d.attempts[i].(status := status, failureCode := code)])
  }

  // ---- Status writes ----

  /** The guarded write: checks the table and the current status, and logs the change. */
  function TransitionRun(d: Db, from: RunStatus, to: RunStatus): Option<Db> {
    if CanRun(from, to) && d.run.status == from
    then Some(d.(run := d.run.(status := to), log := Emit(d.log, StatusChange(from, to))))
    else None
  }

  function TransitionTask(d: Db, from: TaskStatus, to: TaskStatus): Option<Db> {
    if CanTask(from, to) && d.task.status == from
    then Some(d.(task := d.task.(status := to)))
    else None
  }

  /** The unguarded write of the control service: any status, logged from the current one. */
  function WriteRun(d: Db, run: Run): Db {
    d.(run := run, log := Emit(d.log, StatusChange(d.run.status, run.status)))
  }

  function Attention(d: Db, reason: Reason): Db {
    d.(run := d.run.(phase := "NEEDS_ATTENTION", activeStartedAt := None),
       task := Task(TaskStatus.NeedsAttention, Some(reason)))
  }

  // ---- Commands ----

  function BuildCommand(run: Run, attemptNo: pos, checkpoint: Option<nat>): Command {
    Command(if checkpoint.Some? then ResumeRun else StartRun, attemptNo, checkpoint,
            NonNegative(run.cfg.budgetTokens - run.usedTokens),
            NonNegative(run.cfg.budgetSeconds - run.usedSeconds))
  }

  // ---- Claim ----

  function ClaimTx(d: Db, now: int, ttl: nat, pre: Run, no: pos, token: nat): Option<Db> {
    if !d.run.status.Dispatched? || no != LatestNo(d.attempts) + 1 || no > d.run.cfg.maxAttempts
       || HasToken(d.attempts, token) then None
    else
      var d1 := d.(attempts := d.attempts + [Attempt(no, token, AttemptStatus.Running, None, now + ttl)]);
      var d2 :- TransitionRun(d1, RunStatus.Dispatched, RunStatus.Running);
      var d3 := d2.(run := d2.run.(activeStartedAt := Some(pre.activeStartedAt.GetOr(now))));
      if d3.task.status.Queued? then TransitionTask(d3, TaskStatus.Queued, TaskStatus.Running) else Some(d3)
  }

  /** `known` says whether the first, unlocked look found an attempt with this number. */
  function ClaimAttempt(d: Db, now: int, ttl: nat, pre: Run, known: bool, no: pos, token: nat): Db {
    if known || !pre.status.Dispatched? then d else ClaimTx(d, now, ttl, pre, no, token).GetOr(d)
  }

  // ---- Heartbeat, checkpoints, phases, environment ----

  /** The route's lease check and the update, as one step. */
  function HeartbeatTx(d: Db, now: int, ttl: nat, i: nat, token: nat): Db {
    if LeaseHeld(d, now, i, token) && TimeLeft(d, now)
    then d.(attempts := d.attempts[i := d.attempts[i].(leaseExpiresAt := now + ttl)])
    else d
  }

  function SaveCheckpoint(d: Db, now: int, cp: Checkpoint, reported: nat): Db {
    if !(AttemptRunning(d, cp.attempt) && d.attempts[cp.attempt].leaseExpiresAt > now
         && (d.run.status.Running? || d.run.status.Verifying?)) then d
    else
      var d1 := d.(checkpoints := d.checkpoints + [cp]);
      if !d.run.cfg.snapshot && d.run.usedTokens < reported
      then d1.(run := d1.run.(usedTokens := reported))
      else d1
  }

  function SetPhase(d: Db, now: int, i: nat, token: nat, phase: string): Db {
    if LeaseHeld(d, now, i, token) && TimeLeft(d, now)
    then d.(run := d.run.(phase := phase), log := Emit(d.log, PhaseChange(d.run.phase, phase)))
    else d
  }

  /** `resolved` is the image the shared environment table holds for the fingerprint, if any. */
  function PinEnvironment(d: Db, now: int, i: nat, token: nat, image: string, resolved: Option<string>): Db {
    if !(LeaseHeld(d, now, i, token) && TimeLeft(d, now)) then d
    else if d.run.imageId.Some? && d.run.imageId.value != image then d
    else if resolved.Some? && resolved.value != image then d
    else d.(run := d.run.(imageId := Some(image)))
  }

  // ---- Completion, lease expiry and policy ----

  /** What a worker reports with its result; an empty patch is no patch. */
  datatype Outcome = Outcome(patch: string, usedTokens: Option<nat>, usedSeconds: Option<nat>)

  /** Usage, then the patch.  Only a fixture run uses the numbers that the worker reports. */
  function PersistExtras(d: Db, now: int, pre: Run, i: nat, outcome: Outcome): Db {
    var run :=
      if d.run.cfg.snapshot then ChargeActive(d.run, now)
      else d.run.(
          usedTokens :=
            if outcome.usedTokens.None? then d.run.usedTokens
            else if pre.usedTokens > outcome.usedTokens.value then pre.usedTokens
            else outcome.usedTokens.value,
          usedSeconds := d.run.usedSeconds + outcome.usedSeconds.GetOr(0));
    d.(run := run, patches := if outcome.patch == "" then d.patches else d.patches + [Patch(i, outcome.patch)])
  }

  predicate Unresolved(d: Db) { !AllSettled(d.calls) }

  predicate Exhausted(run: Run, now: int) {
    || run.usedTokens >= run.cfg.budgetTokens
    || run.usedSeconds >= run.cfg.budgetSeconds
    || DeadlinePassed(run, now)
  }

  function DecideFor(d: Db, no: pos, code: FailureCode): PolicyAction {
    if d.run.cfg.recoveryDisabled then Abort else ActionFor(code, no, d.run.cfg.maxAttempts)
  }

  /** Carries out a recorded decision. */
  function Enact(d: Db, now: int, i: nat, no: pos, code: FailureCode, action: PolicyAction): Option<Db> {
    match action
    case Resume => Redispatch(d, now, i, no, action, BackoffMs(code, no, action))
    case RestartAttempt => Redispatch(d, now, i, no, action, BackoffMs(code, no, action))
    case Abort =>
      var d2 := d.(run := d.run.(phase := "FAILED", activeStartedAt := None));
      var d3 :- TransitionRun(d2, RunStatus.Interrupted, RunStatus.Failed);
      if d3.task.status.Running? then TransitionTask(d3, TaskStatus.Running, TaskStatus.Failed) else Some(d3)
    case EscalateHuman => Some(Attention(d, FailedWith(code)))
  }

  /** A snapshot run pays for its open interval before anything is decided. */
  function IntervalClosed(d: Db, now: int): Db {
    if d.run.cfg.snapshot && d.run.activeStartedAt.Some? then d.(run := ChargeActive(d.run, now)) else d
  }

  function ApplyPolicy(d: Db, now: int, i: nat, no: pos, code: FailureCode): Option<Db> {
    var d0 := IntervalClosed(d, now);
    if d.run.cfg.snapshot && (Unresolved(d0) || Exhausted(d0.run, now)) then
      Some(Attention(d0, Said(if Unresolved(d0) then "MODEL_USAGE_UNKNOWN" else "BUDGET_EXHAUSTED")))
    else
      var action := DecideFor(d0, no, code);
      Enact(d0.(decisions := d0.decisions + [Decision(i, code, action)]), now, i, no, code, action)
  }

  /** Writes the next command and takes the run through RECOVERING to DISPATCHED. */
  function SendAgain(d: Db, now: int, no: pos, action: PolicyAction, backoffMs: nat): Option<Db> {
    var checkpoint := if action.Resume? then LatestCheckpoint(d) else None;
    var d1 :- TransitionRun(d, RunStatus.Interrupted, RunStatus.Recovering);
    var d2 := d1.(outbox := d1.outbox + [Message(BuildCommand(d1.run, no + 1, checkpoint), now + backoffMs)],
                  log := Emit(d1.log, RecoveryAction(action, checkpoint, no + 1)));
    TransitionRun(d2, RunStatus.Recovering, RunStatus.Dispatched)
  }

  /** Charges the backoff, then sends the run out again unless that spent the time budget. */
  function Redispatch(d: Db, now: int, i: nat, no: pos, action: PolicyAction, backoffMs: nat): Option<Db> {
    var d1 :=
      if d.run.cfg.snapshot
      then d.(run := d.run.(usedSeconds := d.run.usedSeconds + CeilSeconds(backoffMs), phase := "QUEUED"))
      else d;
    if d.run.cfg.snapshot && d1.run.usedSeconds >= d1.run.cfg.budgetSeconds then
      Some(Attention(d1, Said("BUDGET_EXHAUSTED")))
    else SendAgain(d1, now, no, action, backoffMs)
  }

  /** The status to interrupt comes from the unlocked read. */
  function Interrupt(d: Db, pre: Run): Option<Db> {
    if pre.status.Running? || pre.status.Verifying? || pre.status.Dispatched?
    then TransitionRun(d, pre.status, RunStatus.Interrupted)
    else Some(d)
  }

  function FailTx(d: Db, now: int, pre: Run, i: nat, code: FailureCode, outcome: Outcome): Option<Db> {
    if !AttemptRunning(d, i) then None
    else
      var d1 := PersistExtras(EndAttempt(d, i, AttemptStatus.Failed, Some(code)), now, pre, i, outcome);
      var d2 :- Interrupt(d1, pre);
      ApplyPolicy(d2, now, i, d.attempts[i].no, code)
  }

  /** The status changes of a success, and the approval it asks for: one per task. */
  function FinishTx(d: Db, outcome: Outcome): Option<Db> {
    var d1 :- TransitionRun(d, RunStatus.Running, RunStatus.Verifying);
    var d2 :- TransitionRun(d1, RunStatus.Verifying, RunStatus.Succeeded);
    var d3 :- TransitionTask(d2, TaskStatus.Running, TaskStatus.AwaitingApproval);
    if d3.approval.Some? then None
    else
      Some(d3.(
             run := d3.run.(phase := "AWAITING_APPROVAL"),
             approval := Some(Approval(ApprovalStatus.Pending,
                                       if outcome.patch == "" then None else Some(Sha256(outcome.patch)), None)),
             log := Emit(d3.log, ApprovalRequested)))
  }

  function SucceedTx(d: Db, now: int, pre: Run, i: nat, outcome: Outcome): Option<Db> {
    if !AttemptRunning(d, i) || d.attempts[i].leaseExpiresAt <= now then None
    else if d.run.cfg.snapshot && Unresolved(d) then None
    else
      FinishTx(PersistExtras(EndAttempt(d, i, AttemptStatus.Succeeded, d.attempts[i].failureCode), now, pre, i, outcome),
               outcome)
  }

  function ExpireTx(d: Db, now: int, pre: Run, i: nat): Option<Db> {
    if !AttemptRunning(d, i) || d.attempts[i].leaseExpiresAt > now then None
    else
      var d2 :- Interrupt(EndAttempt(d, i, AttemptStatus.LeaseExpired, Some(WorkerLost)), pre);
      ApplyPolicy(d2, now, i, d.attempts[i].no, WorkerLost)
  }

  // ---- User control ----

  function Paused(d: Db, now: int, i: nat, reason: string, patch: string): Db
    requires i < |d.attempts|
  {
    var d1 := EndAttempt(d, i, AttemptStatus.Failed, d.attempts[i].failureCode);
    var d2 := d1.(task := Task(TaskStatus.NeedsAttention, Some(Said(reason))),
                  patches := if patch == "" then d.patches else d.patches + [Patch(i, patch)]);
    WriteRun(d2, ChargeActive(d.run, now).(status := RunStatus.Interrupted, phase := "NEEDS_ATTENTION"))
  }

  function PauseTx(d: Db, now: int, i: nat, token: nat, reason: string, patch: string): Db {
    if LeaseHeld(d, now, i, token) then Paused(d, now, i, reason, patch) else d
  }

  function CancelAttempts(attempts: seq<Attempt>): seq<Attempt> {
    seq(|attempts|, i requires 0 <= i < |attempts| =>
      if attempts[i].status.Running? || attempts[i].status.Claimed?
      then attempts[i].(status := AttemptStatus.Failed, failureCode := Some(CancelledByUser))
      else attempts[i])
  }

  function CancelTx(d: Db, now: int): Db {
    if d.run.status.Cancelled? || d.run.status.Succeeded? || d.run.status.Failed? then d
    else
      WriteRun(d.(task := d.task.(status := TaskStatus.Cancelled), attempts := CancelAttempts(d.attempts)),
               ChargeActive(d.run, now).(status := RunStatus.Cancelled, phase := "CANCELLED"))
  }

  /** A contract that the baseline run refuted needs a new task, not another attempt. */
  predicate ContractRefuted(task: Task) {
    && task.attentionReason.Some?
    && task.attentionReason.value.Said?
    && var text := task.attentionReason.value.text;
      text == "NOT_REPRODUCED" || text == "EVIDENCE_MISMATCH" || text == "CONTRACT_CHANGED"
  }

  function ResumeTx(d: Db, now: int): Db {
    if !d.run.status.Interrupted? || !d.run.cfg.snapshot then d
    else if d.run.usedTokens >= d.run.cfg.budgetTokens || d.run.usedSeconds >= d.run.cfg.budgetSeconds
            || |d.attempts| >= d.run.cfg.maxAttempts || Unresolved(d) || DeadlinePassed(d.run, now) then d
    else if ContractRefuted(d.task) then d
    else
      var command := BuildCommand(d.run, LatestNo(d.attempts) + 1, LatestCheckpoint(d));
      WriteRun(d.(task := Task(TaskStatus.Queued, None), outbox := d.outbox + [Message(command, now)]),
               d.run.(status := RunStatus.Dispatched, phase := "QUEUED"))
  }

  // ---- The token ledger ----

  predicate MayReserve(d: Db, now: int, i: nat, token: nat, id: nat, amount: nat) {
    && LeaseHeld(d, now, i, token)
    && !DeadlinePassed(d.run, now)
    && d.run.usedSeconds * 1000 + ActiveMs(d.run, now) < d.run.cfg.budgetSeconds * 1000
    && FindCall(d.calls, id).None?
    && AvailableBudget(d.run.cfg.budgetTokens, d.calls) >= amount
  }

  function ReserveTx(d: Db, now: int, i: nat, token: nat, id: nat, amount: nat): Db {
    if MayReserve(d, now, i, token, id, amount)
    then d.(calls := d.calls + [Call(id, amount, None, CallStatus.Reserved)])
    else d
  }

  function SettleCall(c: Call, used: Option<nat>): Call {
    c.(used := used, status := if used.None? then CallStatus.Unknown else CallStatus.Settled)
  }

  /** No lease is asked for: usage may become known after the attempt has ended. */
  function SettleTx(d: Db, id: nat, used: Option<nat>): Db {
    var at := FindCall(d.calls, id);
    if at.None? || d.calls[at.value].status.Settled? then d
    else
      var calls := d.calls[at.value := SettleCall(d.calls[at.value], used)];
      d.(calls := calls, run := d.run.(usedTokens := LedgerTotal(calls)))
  }
}
