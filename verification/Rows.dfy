/**
 The database rows that the control plane keeps for one run, as values.

 A `Db` holds every row that belongs to one run: the Run row itself, its Task, its attempts in
 order of creation, the model-call ledger, the outbox commands, the checkpoints, the PATCH
 artifacts, the policy decisions, the event log, the approval and the delivery job.
 Row identifiers are positions: attempt `i`, checkpoint `i`.  Times are integer milliseconds.
 */
module Rows {
  import opened Wrappers

  datatype RunStatus =
    Pending | Dispatched | Running | Verifying | Interrupted | Recovering | Succeeded | Failed | Cancelled

  datatype TaskStatus =
    Created | Queued | Running | NeedsAttention | AwaitingApproval | Approved | PrCreated | PrFailed
    | Resolved | Rejected | Failed | Cancelled

  datatype AttemptStatus = Claimed | Running | Succeeded | Failed | Crashed | TimedOut | LeaseExpired

  datatype FailureCode =
    ModelRateLimit | ModelApiError | ModelBadOutput | ToolExecError | PatchApplyFailed
    | SandboxStartFailed | SandboxCrashed | WorkerLost | BudgetTokensExceeded | BudgetTimeExceeded
    | BudgetTurnsExceeded | AgentStuck | VerifyPatchMalformed | VerifyScopeViolation
    | VerifyStaticFailed | VerifyTargetTestsFailed | VerifyRegressionFailed | VerifyTestTampering
    | HumanRejected | CancelledByUser

  datatype PolicyAction = Resume | RestartAttempt | EscalateHuman | Abort

  datatype DeliveryKind = PatchOnly | PullRequest

  /** Columns of the Run row that no code path writes after creation. */
  datatype Config = Config(
    snapshot: bool,          // a confirmed snapshot task; false for a fixture task
    recoveryDisabled: bool,
    maxAttempts: nat,
    budgetTokens: nat,
    budgetSeconds: nat,
    deadlineAt: Option<int>,
    delivery: DeliveryKind)

  datatype Run = Run(
    cfg: Config,
    status: RunStatus,
    phase: string,
    usedTokens: nat,
    usedSeconds: int,
    activeStartedAt: Option<int>,
    imageId: Option<string>)

  /** Why a task waits for a person: a reported text, or the failure code of its attempt. */
  datatype Reason = Said(text: string) | FailedWith(code: FailureCode)

  datatype Task = Task(status: TaskStatus, attentionReason: Option<Reason>)

  /** Attempt numbers; requests with any other number are malformed. */
  type pos = n: nat | n >= 1 witness 1

  datatype Attempt = Attempt(
    no: pos,
    leaseToken: nat,
    status: AttemptStatus,
    failureCode: Option<FailureCode>,
    leaseExpiresAt: int)

  datatype CallStatus = Reserved | Unknown | Settled

  datatype Call = Call(id: nat, reserved: nat, used: Option<nat>, status: CallStatus)

  datatype CommandKind = StartRun | ResumeRun

  datatype Command = Command(
    kind: CommandKind,
    attemptNo: pos,
    checkpoint: Option<nat>,
    remainingTokens: nat,
    remainingSeconds: int)

  datatype Message = Message(command: Command, notBefore: int)

  datatype Checkpoint = Checkpoint(attempt: nat, appliedPatch: Option<string>, completed: map<string, string>)

  datatype Patch = Patch(attempt: nat, content: string)

  datatype Decision = Decision(attempt: nat, code: FailureCode, action: PolicyAction)

  /** SHA-256 of a patch, read as an injective function of the content. */
  datatype Digest = Sha256(content: string)

  datatype ApprovalStatus = Pending | Approved | Rejected

  datatype Approval = Approval(status: ApprovalStatus, patchDigest: Option<Digest>, prUrl: Option<string>)

  datatype JobStatus = Queued | Running | Succeeded | Failed | NeedsAttention

  datatype Job = Job(
    status: JobStatus,
    attempts: nat,
    patchDigest: Digest,
    leaseToken: Option<nat>,
    leaseExpiresAt: int,
    commitSha: Option<Digest>,
    prUrl: Option<string>)

  /** `cp:<run>:<n>` for events the control plane writes, any other key for events of a worker. */
  datatype EventKey = Synthetic(n: nat) | Worker(key: string)

  datatype EventBody =
    | StatusChange(from: RunStatus, to: RunStatus)
    | PhaseChange(oldPhase: string, newPhase: string)
    | RecoveryAction(action: PolicyAction, checkpoint: Option<nat>, newAttemptNo: pos)
    | ApprovalRequested
    | Runtime(payload: string)

  datatype EventRow = EventRow(runSequence: nat, key: EventKey, body: EventBody)

  /** The run's `lastSequence` counter with the TraceEvent rows in order of insertion. */
  datatype Log = Log(last: nat, rows: seq<EventRow>)

  datatype Db = Db(
    run: Run,
    task: Task,
    attempts: seq<Attempt>,
    calls: seq<Call>,
    outbox: seq<Message>,
    checkpoints: seq<Checkpoint>,
    patches: seq<Patch>,
    decisions: seq<Decision>,
    log: Log,
    approval: Option<Approval>,
    job: Option<Job>)
}
