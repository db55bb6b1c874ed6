/** The recovery decision table: what to do with a failed attempt. */
module PolicyEngine {
  import opened Rows

  /** The two table entries of a failure code: below the attempt limit, and at it. */
  function Table(code: FailureCode): (PolicyAction, PolicyAction) {
    match code
    case ModelRateLimit => (Resume, EscalateHuman)
    case ModelApiError => (Resume, EscalateHuman)
    case ModelBadOutput => (Resume, EscalateHuman)
    case ToolExecError => (Resume, EscalateHuman)
    case SandboxCrashed => (Resume, EscalateHuman)
    case SandboxStartFailed => (RestartAttempt, EscalateHuman)
    case WorkerLost => (Resume, EscalateHuman)
    case PatchApplyFailed => (RestartAttempt, EscalateHuman)
    case AgentStuck => (RestartAttempt, EscalateHuman)
    case BudgetTokensExceeded => (EscalateHuman, EscalateHuman)
    case BudgetTimeExceeded => (EscalateHuman, EscalateHuman)
    case BudgetTurnsExceeded => (EscalateHuman, EscalateHuman)
    case VerifyStaticFailed => (Resume, EscalateHuman)
    case VerifyTargetTestsFailed => (Resume, EscalateHuman)
    case VerifyRegressionFailed => (Resume, EscalateHuman)
    case VerifyScopeViolation => (RestartAttempt, Abort)
    case VerifyTestTampering => (RestartAttempt, Abort)
    case VerifyPatchMalformed => (RestartAttempt, Abort)
    case HumanRejected => (Abort, Abort)
    case CancelledByUser => (Abort, Abort)
  }

  predicate Redispatches(action: PolicyAction) { action.Resume? || action.RestartAttempt? }

  function Pow2(n: nat): (r: nat)
    ensures r >= 1
  {
    if n == 0 then 1 else 2 * Pow2(n - 1)
  }

  function ActionFor(code: FailureCode, attemptNo: pos, maxAttempts: nat): PolicyAction {
    if attemptNo >= maxAttempts then Table(code).1 else Table(code).0
  }

  /** 30 s doubled per attempt, for the two model failures that are worth waiting for. */
  function BackoffMs(code: FailureCode, attemptNo: pos, action: PolicyAction): nat {
    if action.Resume? && (code.ModelRateLimit? || code.ModelApiError?)
    then 30_000 * Pow2(attemptNo - 1)
    else 0
  }

  /** No entry at the attempt limit sends the run out again: the fact that bounds every run. */
  lemma AtLimitNeverRedispatches(code: FailureCode, attemptNo: pos, maxAttempts: nat)
    ensures Redispatches(ActionFor(code, attemptNo, maxAttempts)) ==> attemptNo < maxAttempts
  {
  }
}
