/** Approval, delivery job and task over whole runs, whoever delivers and however often. */
module DeliveryTheorems {
  import opened Wrappers
  import opened Rows
  import opened RunProtocol
  import opened DeliveryRows
  import opened RunSystem
  import opened RunInvariant
  import opened JointProof
  import opened LogProof
  import opened RunTheorems
  import opened Fencing

  /** Only deliveries touch the job. */
  lemma JobIsDeliverys(d: Db, now: int, ttl: nat, op: Op)
    requires JointOk(d) && !op.Deliver?
    ensures Apply(d, now, ttl, op).job == d.job
    ensures d.job.Some? ==> Apply(d, now, ttl, op).patches == d.patches
  {
    match op
    case Fail(_, _, _) => FailureStep(d, now, ttl, op);
    case Expire(_) => FailureStep(d, now, ttl, op);
    case Succeed(i, outcome) => if AttemptRunning(d, i) { SucceedCommits(d, now, d.run, i, outcome); }
    case _ =>
  }

  /** The task tells exactly how the delivery stands, and the attempts are bounded. */
  lemma DeliveryIsCoupled(s: Sys)
    requires Reachable(s) && s.d.job.Some?
    ensures var job := s.d.job.value;
      && ((job.status.Queued? || job.status.Running?) <==> s.d.task.status.Approved?)
      && (job.status.Succeeded? <==> s.d.task.status.PrCreated?)
      && ((job.status.Failed? || job.status.NeedsAttention?) <==> s.d.task.status.PrFailed?)
      && (job.status.Succeeded? <==> job.prUrl.Some?)
      && job.attempts <= MAX_DELIVERIES
      && s.d.run.status.Succeeded?
  {
    EveryRunKeepsInv(s);
  }

  /** A decision on an approval is never changed, and what was approved stays the same patch. */
  lemma DecisionIsFinal(s: Sys, ops: seq<Op>)
    requires Reachable(s) && s.d.approval.Some? && !s.d.approval.value.status.Pending?
    ensures var e := Exec(s, ops).d;
      && e.approval.Some?
      && e.approval.value.status == s.d.approval.value.status
      && e.approval.value.patchDigest == s.d.approval.value.patchDigest
      && e.patches == s.d.patches
  {
    EveryRunKeepsInv(s);
    TerminalIsFinal(s, ops);
  }

  predicate ClaimsWith(op: Op, token: nat) { op.Deliver? && op.op.ClaimJob? && op.op.token == token }

  predicate Holder(d: Db, token: nat) { d.job.Some? && d.job.value.leaseToken == Some(token) }

  lemma StepKeepsHolder(d: Db, now: int, ttl: nat, op: Op, token: nat)
    requires JointOk(d) && !Holder(d, token) && !ClaimsWith(op, token)
    ensures !Holder(Apply(d, now, ttl, op), token)
  {
    if !op.Deliver? {
      JobIsDeliverys(d, now, ttl, op);
    }
  }

  /** A lease token that was superseded, or never granted, records no result however late it comes. */
  lemma {:induction false} StaleTokenNeverRecords(s: Sys, ops: seq<Op>, token: nat, url: string,
                                                         conflict: bool, message: string)
    requires Inv(s) && !Holder(s.d, token)
    requires forall i :: 0 <= i < |ops| ==> !ClaimsWith(ops[i], token)
    ensures var e := Exec(s, ops);
      && DeliveryStep(e.d, e.now, RecordPr(token, url)) == e.d
      && DeliveryStep(e.d, e.now, RecordError(token, conflict, message)) == e.d
      && DeliveryStep(e.d, e.now, Renew(token)) == e.d
    decreases |ops|
  {
    if ops != [] {
      assert !ClaimsWith(ops[0], token);
      assert forall i :: 0 <= i < |ops[1..]| ==> ops[1..][i] == ops[i + 1];
      StepKeepsInv(s, ops[0]);
      StepKeepsHolder(s.d, s.now, s.ttl, ops[0], token);
      StaleTokenNeverRecords(Next(s, ops[0]), ops[1..], token, url, conflict, message);
    }
  }

  // ---- What each transaction on the delivery comes to ----

  function Delivered(s: Sys, op: DeliveryOp): Db { Next(s, Op.Deliver(op)).d }

  /** An approval that is still open, of the newest patch of a snapshot run. */
  predicate Open(d: Db) { d.run.cfg.snapshot && d.approval.Some? && d.approval.value.status.Pending? }

  /**
   An approval with a patch is granted as long as it is open: the identity check never fails, because
   the newest patch is the one under approval.  A pull-request task gets its one job.
   */
  lemma ApproveStep(s: Sys)
    requires Reachable(s)
    ensures var d, e := s.d, Delivered(s, Approve);
      if Open(d) && d.approval.value.patchDigest.Some?
      then
        && e == d.(approval := Some(d.approval.value.(status := ApprovalStatus.Approved)), task := e.task, job := e.job)
        && e.task.attentionReason == d.task.attentionReason
        && (d.run.cfg.delivery.PatchOnly? ==> e.task.status.Resolved? && e.job.None?)
        && (d.run.cfg.delivery.PullRequest? ==>
              && e.task.status.Approved?
              && e.job == Some(Job(JobStatus.Queued, 0, d.approval.value.patchDigest.value, None, 0, None, None)))
      else e == d
  {
    EveryRunKeepsInv(s);
  }

  lemma RejectStep(s: Sys)
    requires Reachable(s)
    ensures var d, e := s.d, Delivered(s, Reject);
      if Open(d)
      then e == d.(approval := Some(d.approval.value.(status := ApprovalStatus.Rejected)),
                   task := d.task.(status := TaskStatus.Rejected))
      else e == d
  {
  }

  /** The job of a delivery that failed can be sent off again, four times in all. */
  lemma RetriedDeliveryRuns(s: Sys, token: nat)
    requires Reachable(s) && s.d.job.Some? && s.d.job.value.status.Failed? && s.d.job.value.attempts < 5
    ensures var q := Next(s, Op.Deliver(Retry));
      var e := Delivered(q, ClaimJob(token));
      && q.d == s.d.(job := Some(s.d.job.value.(status := JobStatus.Queued)), task := Task(TaskStatus.Approved, None))
      && e == q.d.(job := Some(s.d.job.value.(status := JobStatus.Running, leaseToken := Some(token),
                                              leaseExpiresAt := s.now + 600_000, attempts := s.d.job.value.attempts + 1)))
  {
  }

  /** A job is claimed exactly if it waits, or its lease has run out, and attempts are left. */
  lemma ClaimJobStep(s: Sys, token: nat)
    requires Reachable(s)
    ensures var d, e := s.d, Delivered(s, ClaimJob(token));
      if && d.job.Some? && d.job.value.attempts < 5
         && (d.job.value.status.Queued? || (d.job.value.status.Running? && d.job.value.leaseExpiresAt < s.now))
      then e == d.(job := Some(d.job.value.(status := JobStatus.Running, leaseToken := Some(token),
                                            leaseExpiresAt := s.now + 600_000, attempts := d.job.value.attempts + 1)))
      else e == d
  {
  }

  predicate Owner(d: Db, token: nat) {
    d.job.Some? && d.job.value.status.Running? && d.job.value.leaseToken == Some(token)
  }

  /** The owner of a running job keeps it for ten minutes more; nobody else does. */
  lemma RenewStep(s: Sys, token: nat)
    requires Reachable(s)
    ensures Delivered(s, Renew(token))
         == if Owner(s.d, token) then s.d.(job := Some(s.d.job.value.(leaseExpiresAt := s.now + 600_000))) else s.d
  {
  }

  /** The commit of a job is kept with it, for the next delivery to compare. */
  lemma PinStep(s: Sys, commit: Digest)
    requires s.d.job.Some?
    ensures Delivered(s, PinCommit(commit)) == s.d.(job := Some(s.d.job.value.(commitSha := Some(commit))))
  {
  }

  /** The owner of a running job records its result, in job, approval and task; nobody else does. */
  lemma RecordPrStep(s: Sys, token: nat, url: string)
    requires Reachable(s)
    ensures var d, e := s.d, Delivered(s, RecordPr(token, url));
      if Owner(d, token)
      then
        && e == d.(job := Some(d.job.value.(status := JobStatus.Succeeded, prUrl := Some(url))), approval := e.approval,
                   task := d.task.(status := TaskStatus.PrCreated))
        && e.approval.Some? && d.approval.Some? && e.approval.value == d.approval.value.(prUrl := Some(url))
      else e == d
  {
    EveryRunKeepsInv(s);
  }

  /** Or its failure: a conflict asks for a person, anything else may be tried again. */
  lemma RecordErrorStep(s: Sys, token: nat, conflict: bool, message: string)
    requires Reachable(s)
    ensures var d := s.d;
      Delivered(s, RecordError(token, conflict, message))
         == if Owner(d, token)
            then d.(job := Some(d.job.value.(status := if conflict then JobStatus.NeedsAttention else JobStatus.Failed)),
                    task := Task(TaskStatus.PrFailed, Some(Said(message))))
            else d
  {
  }

  /** A job that died in its last attempt is given up once its lease has run out. */
  lemma GiveUpStep(s: Sys)
    requires Reachable(s)
    ensures var d, e := s.d, Delivered(s, GiveUp);
      if d.job.Some? && d.job.value.status.Running? && d.job.value.attempts == 5 && d.job.value.leaseExpiresAt < s.now
      then e == d.(job := Some(d.job.value.(status := JobStatus.Failed)), task := d.task.(status := TaskStatus.PrFailed))
      else e == d
  {
    EveryRunKeepsInv(s);
  }

  /** Delivered, in conflict, or failed for the fifth time. */
  predicate Over(job: Job) {
    job.status.Succeeded? || job.status.NeedsAttention? || (job.status.Failed? && job.attempts >= 5)
  }

  /** The job without the commit, which may be pinned at any time. */
  function Core(job: Job): Job { job.(commitSha := None) }

  lemma OverStays(d: Db, now: int, ttl: nat, op: Op)
    requires JointOk(d) && d.job.Some? && Over(d.job.value)
    ensures var e := Apply(d, now, ttl, op); e.job.Some? && Core(e.job.value) == Core(d.job.value)
  {
    if !op.Deliver? {
      JobIsDeliverys(d, now, ttl, op);
    }
  }

  /** A delivery that is over stays as it is: it is neither repeated nor reopened. */
  lemma {:induction false} OverIsFinal(s: Sys, ops: seq<Op>)
    requires Inv(s) && s.d.job.Some? && Over(s.d.job.value)
    ensures var e := Exec(s, ops).d; e.job.Some? && Core(e.job.value) == Core(s.d.job.value)
    decreases |ops|
  {
    if ops != [] {
      StepKeepsInv(s, ops[0]);
      OverStays(s.d, s.now, s.ttl, ops[0]);
      OverIsFinal(Next(s, ops[0]), ops[1..]);
    }
  }
}
