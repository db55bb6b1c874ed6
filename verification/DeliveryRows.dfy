/** The transactions on the approval, the delivery job and the task of a finished run. */
module DeliveryRows {
  import opened Wrappers
  import opened Rows

  const MAX_DELIVERIES: nat := 5
  const DELIVERY_LEASE_MS: nat := 600_000

  datatype DeliveryOp =
    | Approve
    | Reject
    | Retry
    | GiveUp
    | ClaimJob(token: nat)
    | Renew(token: nat)
    | PinCommit(commit: Digest)
    | RecordPr(token: nat, url: string)
    | RecordError(token: nat, conflict: bool, message: string)

  function NewestDigest(patches: seq<Patch>): Option<Digest> {
    if patches == [] then None else Some(Sha256(patches[|patches| - 1].content))
  }

  predicate Owns(job: Job, token: nat) { job.leaseToken == Some(token) && job.status.Running? }

  predicate Claimable(job: Job, now: int) {
    job.attempts < MAX_DELIVERIES && (job.status.Queued? || (job.status.Running? && job.leaseExpiresAt < now))
  }

  /** Pins the approved digest; a rejected identity check leaves everything pending. */
  function ApproveTx(d: Db): Db {
    if d.approval.None? || !d.approval.value.status.Pending? || !d.run.cfg.snapshot then d
    else if NewestDigest(d.patches).None? || NewestDigest(d.patches) != d.approval.value.patchDigest then d
    else
      var d1 := d.(approval := Some(d.approval.value.(status := ApprovalStatus.Approved)));
      match d.run.cfg.delivery
      case PatchOnly => d1.(task := d.task.(status := TaskStatus.Resolved))
      case PullRequest =>
        d1.(task := d.task.(status := TaskStatus.Approved),
            job := Some(Job(JobStatus.Queued, 0, NewestDigest(d.patches).value, None, 0, None, None)))
  }

  function RejectTx(d: Db): Db {
    if d.approval.None? || !d.approval.value.status.Pending? || !d.run.cfg.snapshot then d
    else
      d.(approval := Some(d.approval.value.(status := ApprovalStatus.Rejected)),
         task := d.task.(status := TaskStatus.Rejected))
  }

  function RetryTx(d: Db): Db {
    if d.job.None? || !d.job.value.status.Failed? || d.job.value.attempts >= MAX_DELIVERIES then d
    else
      d.(job := Some(d.job.value.(status := JobStatus.Queued)),
         task := Task(TaskStatus.Approved, None))
  }

  function GiveUpTx(d: Db, now: int): Db {
    if d.job.None? || !d.job.value.status.Running? || d.job.value.attempts < MAX_DELIVERIES
       || d.job.value.leaseExpiresAt >= now then d
    else
      d.(job := Some(d.job.value.(status := JobStatus.Failed)), task := d.task.(status := TaskStatus.PrFailed))
  }

  function ClaimJobTx(d: Db, now: int, token: nat): Db {
    if d.job.None? || !Claimable(d.job.value, now) then d
    else
      d.(job := Some(d.job.value.(
           status := JobStatus.Running, leaseToken := Some(token),
           leaseExpiresAt := now + DELIVERY_LEASE_MS, attempts := d.job.value.attempts + 1)))
  }

  function RenewTx(d: Db, now: int, token: nat): Db {
    if d.job.None? || !Owns(d.job.value, token) then d
    else d.(job := Some(d.job.value.(leaseExpiresAt := now + DELIVERY_LEASE_MS)))
  }

  function PinCommitTx(d: Db, commit: Digest): Db {
    if d.job.None? then d else d.(job := Some(d.job.value.(commitSha := Some(commit))))
  }

  function RecordPrTx(d: Db, token: nat, url: string): Db {
    if d.job.None? || d.approval.None? || !Owns(d.job.value, token) then d
    else
      d.(job := Some(d.job.value.(status := JobStatus.Succeeded, prUrl := Some(url))),
         approval := Some(d.approval.value.(prUrl := Some(url))),
         task := d.task.(status := TaskStatus.PrCreated))
  }

  function RecordErrorTx(d: Db, token: nat, conflict: bool, message: string): Db {
    if d.job.None? || !Owns(d.job.value, token) then d
    else
      d.(job := Some(d.job.value.(status := if conflict then JobStatus.NeedsAttention else JobStatus.Failed)),
         task := Task(TaskStatus.PrFailed, Some(Said(message))))
  }

  function DeliveryStep(d: Db, now: int, op: DeliveryOp): Db {
    match op
    case Approve => ApproveTx(d)
    case Reject => RejectTx(d)
    case Retry => RetryTx(d)
    case GiveUp => GiveUpTx(d, now)
    case ClaimJob(token) => ClaimJobTx(d, now, token)
    case Renew(token) => RenewTx(d, now, token)
    case PinCommit(commit) => PinCommitTx(d, commit)
    case RecordPr(token, url) => RecordPrTx(d, token, url)
    case RecordError(token, conflict, message) => RecordErrorTx(d, token, conflict, message)
  }

  // ---- How approval, job and task belong together ----

  function TaskOfJob(job: Job): TaskStatus {
    match job.status
    case Queued => TaskStatus.Approved
    case Running => TaskStatus.Approved
    case Succeeded => TaskStatus.PrCreated
    case Failed => TaskStatus.PrFailed
    case NeedsAttention => TaskStatus.PrFailed
  }

  /** The only task status that the approval and the job of a finished run allow. */
  function TaskOfApproval(approval: Approval, job: Option<Job>): TaskStatus {
    match approval.status
    case Pending => TaskStatus.AwaitingApproval
    case Rejected => TaskStatus.Rejected
    case Approved => if job.None? then TaskStatus.Resolved else TaskOfJob(job.value)
  }

  ghost predicate DeliveryCoupled(d: Db) {
    && (d.approval.Some? ==> d.task.status == TaskOfApproval(d.approval.value, d.job))
    && (d.job.Some? ==>
          && d.approval.Some? && d.approval.value.status.Approved?
          && d.run.cfg.delivery.PullRequest?
          && d.job.value.attempts <= MAX_DELIVERIES
          && d.approval.value.patchDigest == Some(d.job.value.patchDigest)
          && (d.job.value.status.Succeeded? <==> d.approval.value.prUrl.Some?)
          && d.job.value.prUrl == d.approval.value.prUrl)
    && (d.approval.Some? && d.approval.value.status.Approved? ==>
          && (d.job.Some? <==> d.run.cfg.delivery.PullRequest?)
          && d.approval.value.patchDigest.Some?)
    && (d.approval.Some? && d.job.None? ==> d.approval.value.prUrl.None?)
    // The digest under approval is the digest of the newest patch, or there is none to approve.
    && (d.approval.Some? && d.approval.value.patchDigest.Some? ==>
          NewestDigest(d.patches) == d.approval.value.patchDigest)
  }

  /** Nothing but the approval, the job and the task ever changes. */
  ghost predicate SameRun(d: Db, e: Db) {
    e == d.(approval := e.approval, job := e.job, task := e.task)
  }

  /**
   One delivery transaction keeps the coupling, in whatever order transactions come; a decided
   approval never changes its decision, and a job never forgets its digest or a recorded pull request.
   */
  lemma DeliveryStepKeepsCoupling(d: Db, now: int, op: DeliveryOp)
    requires DeliveryCoupled(d)
    ensures var e := DeliveryStep(d, now, op);
      && DeliveryCoupled(e) && SameRun(d, e)
      && (d.approval.None? ==> e == d)
      && (d.approval.Some? ==>
            && e.approval.Some?
            && e.approval.value.patchDigest == d.approval.value.patchDigest
            && (!d.approval.value.status.Pending? ==> e.approval.value.status == d.approval.value.status)
            && (d.approval.value.prUrl.Some? ==> e.approval == d.approval))
      && (d.job.Some? ==> e.job.Some? && e.job.value.patchDigest == d.job.value.patchDigest
                          && e.job.value.attempts >= d.job.value.attempts)
  {
  }
}
