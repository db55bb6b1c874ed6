/** Once an attempt has ended it has no more effect; once a run has ended it stays as it is. */
module Fencing {
  import opened Wrappers
  import opened Rows
  import opened StateMachine
  import opened RunProtocol
  import opened DeliveryRows
  import opened RunSystem
  import opened RunInvariant
  import opened JointProof
  import opened LogProof
  import opened RunTheorems

  /** The attempt in whose name a worker makes a request, or whose lease expires. */
  function ActorOf(op: Op): Option<nat> {
    match op
    case Beat(i, _) => Some(i)
    case Succeed(i, _) => Some(i)
    case Fail(i, _, _) => Some(i)
    case Expire(i) => Some(i)
    case Save(cp, _) => Some(cp.attempt)
    case Phase(i, _, _) => Some(i)
    case Pin(i, _, _, _) => Some(i)
    case PauseRun(i, _, _, _) => Some(i)
    case ReserveCall(i, _, _, _) => Some(i)
    case _ => None
  }

  predicate ActsAs(op: Op, i: nat) { ActorOf(op) == Some(i) }

  /** Whatever an ended attempt asks for, no row changes. */
  lemma EndedAttemptIsFenced(d: Db, now: int, ttl: nat, op: Op, i: nat)
    requires ActsAs(op, i) && !AttemptRunning(d, i)
    ensures Apply(d, now, ttl, op) == d
  {
  }

  /** The request shows the token of a running attempt whose lease is live. */
  predicate ShowsLease(d: Db, now: int, i: nat, token: nat) {
    AttemptRunning(d, i) && d.attempts[i].leaseToken == token && d.attempts[i].leaseExpiresAt > now
  }

  /** Requests that need a lease: those that show a token, and those checked against the row alone. */
  predicate LacksLease(d: Db, now: int, op: Op) {
    match op
    case Beat(i, token) => !ShowsLease(d, now, i, token)
    case Phase(i, token, _) => !ShowsLease(d, now, i, token)
    case Pin(i, token, _, _) => !ShowsLease(d, now, i, token)
    case PauseRun(i, token, _, _) => !ShowsLease(d, now, i, token)
    case ReserveCall(i, token, _, _) => !ShowsLease(d, now, i, token)
    case Save(cp, _) => !(AttemptRunning(d, cp.attempt) && d.attempts[cp.attempt].leaseExpiresAt > now)
    case Succeed(i, _) => !(AttemptRunning(d, i) && d.attempts[i].leaseExpiresAt > now)
    case Expire(i) => AttemptRunning(d, i) && d.attempts[i].leaseExpiresAt > now
    case _ => false
  }

  /** A wrong token or an expired lease changes nothing, and a live lease never expires. */
  lemma LeaseIsRequired(d: Db, now: int, ttl: nat, op: Op)
    requires LacksLease(d, now, op)
    ensures Apply(d, now, ttl, op) == d
  {
  }

  /** After its deadline a snapshot run is never sent out again, by policy or by hand. */
  lemma DeadlineStopsDispatch(d: Db, now: int, ttl: nat, op: Op)
    requires JointOk(d) && d.run.cfg.snapshot && DeadlinePassed(d.run, now) && !d.run.status.Dispatched?
    ensures !Apply(d, now, ttl, op).run.status.Dispatched?
  {
    match op
    case Fail(i, code, outcome) => if AttemptRunning(d, i) { FailCommits(d, now, d.run, i, code, outcome); }
    case Expire(i) => if AttemptRunning(d, i) && d.attempts[i].leaseExpiresAt <= now { ExpireCommits(d, now, d.run, i); }
    case Succeed(i, outcome) => if AttemptRunning(d, i) { SucceedCommits(d, now, d.run, i, outcome); }
    case Deliver(dop) => DeliveryStepKeepsCoupling(d, now, dop);
    case _ =>
  }

  /** How an attempt row may look after a transaction. */
  predicate AttemptStep(a: Attempt, b: Attempt, op: Op, i: nat) {
    && b.no == a.no && b.leaseToken == a.leaseToken
    && (b.leaseExpiresAt != a.leaseExpiresAt ==> op.Beat? && op.attempt == i)
    && (!a.status.Running? ==> b == a)
    && (a.status.Running? && !b.status.Running? ==> EndedBy(a, b, op, i))
  }

  /** Exactly one of success, failure, expiry, pause and cancellation ends an attempt, and says so. */
  predicate EndedBy(a: Attempt, b: Attempt, op: Op, i: nat) {
    match op
    case Succeed(j, _) => j == i && b == a.(status := AttemptStatus.Succeeded)
    case Fail(j, code, _) => j == i && b == a.(status := AttemptStatus.Failed, failureCode := Some(code))
    case Expire(j) => j == i && b == a.(status := AttemptStatus.LeaseExpired, failureCode := Some(WorkerLost))
    case PauseRun(j, token, _, _) => j == i && token == a.leaseToken && b == a.(status := AttemptStatus.Failed)
    case CancelRun => b == a.(status := AttemptStatus.Failed, failureCode := Some(CancelledByUser))
    case _ => false
  }

  ghost predicate AttemptSteps(d: Db, e: Db, op: Op) {
    && |d.attempts| <= |e.attempts|
    && (forall i :: 0 <= i < |d.attempts| ==> AttemptStep(d.attempts[i], e.attempts[i], op, i))
  }

  lemma EndingStep(d: Db, now: int, ttl: nat, op: Op)
    requires JointOk(d) && (op.Fail? || op.Expire?)
    ensures AttemptSteps(d, Apply(d, now, ttl, op), op)
  {
    FailureStep(d, now, ttl, op);
  }

  lemma SuccessStep(d: Db, now: int, ttl: nat, i: nat, outcome: Outcome)
    requires JointOk(d)
    ensures AttemptSteps(d, Apply(d, now, ttl, Succeed(i, outcome)), Succeed(i, outcome))
  {
    if AttemptRunning(d, i) { SucceedCommits(d, now, d.run, i, outcome); }
  }

  lemma StepOfAttempts(d: Db, now: int, ttl: nat, op: Op)
    requires JointOk(d)
    ensures AttemptSteps(d, Apply(d, now, ttl, op), op)
  {
    match op
    case Fail(_, _, _) => EndingStep(d, now, ttl, op);
    case Expire(_) => EndingStep(d, now, ttl, op);
    case Succeed(i, outcome) => SuccessStep(d, now, ttl, i, outcome);
    case Deliver(dop) => DeliveryStepKeepsCoupling(d, now, dop);
    case _ => ControlStep(d, now, ttl, op);
  }

  lemma ControlStep(d: Db, now: int, ttl: nat, op: Op)
    requires JointOk(d) && !op.Fail? && !op.Expire? && !op.Succeed? && !op.Deliver?
    ensures AttemptSteps(d, Apply(d, now, ttl, op), op)
  {
  }

  /** An attempt that has ended keeps its row for the rest of the run. */
  lemma {:induction false} EndedAttemptsNeverChange(s: Sys, ops: seq<Op>, i: nat)
    requires Inv(s) && i < |s.d.attempts| && !AttemptRunning(s.d, i)
    ensures i < |Exec(s, ops).d.attempts| && Exec(s, ops).d.attempts[i] == s.d.attempts[i]
    decreases |ops|
  {
    if ops != [] {
      StepKeepsInv(s, ops[0]);
      StepOfAttempts(s.d, s.now, s.ttl, ops[0]);
      EndedAttemptsNeverChange(Next(s, ops[0]), ops[1..], i);
    }
  }

  /** Fencing over runs: nothing an ended attempt asks for, however late, changes a row. */
  lemma FencedForEver(s: Sys, ops: seq<Op>, op: Op, i: nat)
    requires Reachable(s) && i < |s.d.attempts| && !AttemptRunning(s.d, i) && ActsAs(op, i)
    ensures Next(Exec(s, ops), op).d == Exec(s, ops).d
  {
    EveryRunKeepsInv(s);
    EndedAttemptsNeverChange(s, ops, i);
    var e := Exec(s, ops);
    EndedAttemptIsFenced(e.d, e.now, e.ttl, op, i);
  }

  /** Requests that are only granted under the attempt's lease. */
  predicate NeedsLease(op: Op) {
    op.Beat? || op.Phase? || op.Pin? || op.PauseRun? || op.ReserveCall? || op.Save? || op.Succeed?
  }

  function TokenOf(op: Op): Option<nat> {
    if op.Beat? || op.Phase? || op.Pin? || op.PauseRun? || op.ReserveCall? then Some(op.token) else None
  }

  /** A lease that has run out is never renewed, and no attempt ever gets another token. */
  lemma {:induction false} LapsedStays(s: Sys, ops: seq<Op>, i: nat)
    requires Inv(s) && i < |s.d.attempts|
    ensures var e := Exec(s, ops);
      && i < |e.d.attempts| && e.d.attempts[i].leaseToken == s.d.attempts[i].leaseToken
      && (s.d.attempts[i].leaseExpiresAt <= s.now ==> e.d.attempts[i].leaseExpiresAt <= e.now)
    decreases |ops|
  {
    if ops != [] {
      StepKeepsInv(s, ops[0]);
      StepOfAttempts(s.d, s.now, s.ttl, ops[0]);
      if ops[0].Beat? && ops[0].attempt == i && s.d.attempts[i].leaseExpiresAt <= s.now {
        LeaseIsRequired(s.d, s.now, s.ttl, ops[0]);
      }
      LapsedStays(Next(s, ops[0]), ops[1..], i);
    }
  }

  /**
   Once the lease of an attempt has run out, or under a token that is not its own, nothing that needs
   the lease changes a row in any later state: not even a heartbeat brings it back.
   */
  lemma NoLeaseForEver(s: Sys, ops: seq<Op>, op: Op, i: nat)
    requires Reachable(s) && i < |s.d.attempts| && ActsAs(op, i) && NeedsLease(op)
    requires s.d.attempts[i].leaseExpiresAt <= s.now
          || (TokenOf(op).Some? && TokenOf(op).value != s.d.attempts[i].leaseToken)
    ensures Next(Exec(s, ops), op).d == Exec(s, ops).d
  {
    EveryRunKeepsInv(s);
    LapsedStays(s, ops, i);
    var e := Exec(s, ops);
    LeaseIsRequired(e.d, e.now, e.ttl, op);
  }

  // ---- Finished runs ----

  /** What a finished run can still change: its log, late usage, and how its patch is delivered. */
  ghost predicate OnlyAftermath(d: Db, e: Db) {
    && e == d.(run := e.run, calls := e.calls, log := e.log, task := e.task, approval := e.approval, job := e.job)
    && e.run == d.run.(usedTokens := e.run.usedTokens)
    && (!d.run.status.Succeeded? ==> e.task == d.task && e.approval == d.approval && e.job == d.job)
    && (d.run.status.Succeeded? && d.run.cfg.snapshot ==> e.calls == d.calls && e.run == d.run)
    && (d.approval.Some? ==>
          && e.approval.Some? && e.approval.value.patchDigest == d.approval.value.patchDigest
          && (!d.approval.value.status.Pending? ==> e.approval.value.status == d.approval.value.status))
  }

  lemma SettledLedgerIsFrozen(d: Db, id: nat, used: Option<nat>)
    requires AllSettled(d.calls)
    ensures SettleTx(d, id, used) == d
  {
  }

  lemma TerminalStep(d: Db, now: int, ttl: nat, op: Op)
    requires JointOk(d) && GateOk(d) && RunTerminal(d.run.status)
    ensures OnlyAftermath(d, Apply(d, now, ttl, op))
  {
    if ActorOf(op).Some? {
      assert !AttemptRunning(d, ActorOf(op).value);
      EndedAttemptIsFenced(d, now, ttl, op, ActorOf(op).value);
    } else {
      TerminalStepOfOthers(d, now, ttl, op);
    }
  }

  lemma TerminalStepOfOthers(d: Db, now: int, ttl: nat, op: Op)
    requires JointOk(d) && GateOk(d) && RunTerminal(d.run.status) && ActorOf(op).None?
    ensures OnlyAftermath(d, Apply(d, now, ttl, op))
  {
    match op
    case Deliver(dop) => DeliveryStepKeepsCoupling(d, now, dop);
    case SettleUsage(id, used) => if AllSettled(d.calls) { SettledLedgerIsFrozen(d, id, used); }
    case _ =>
  }

  /** A finished run stays finished: from then on nothing changes but its aftermath. */
  lemma {:induction false} TerminalIsFinal(s: Sys, ops: seq<Op>)
    requires Inv(s) && RunTerminal(s.d.run.status)
    ensures OnlyAftermath(s.d, Exec(s, ops).d)
    decreases |ops|
  {
    if ops != [] {
      var e := Next(s, ops[0]);
      StepKeepsInv(s, ops[0]);
      TerminalStep(s.d, s.now, s.ttl, ops[0]);
      TerminalIsFinal(e, ops[1..]);
    }
  }

  lemma SuccessPins(d: Db, now: int, ttl: nat, i: nat, outcome: Outcome)
    requires JointOk(d) && outcome.patch != "" && MaySucceed(d, now, i)
    ensures var e := Apply(d, now, ttl, Succeed(i, outcome));
      && e.run.status.Succeeded? && NewestDigest(e.patches) == Some(Sha256(outcome.patch))
      && e.approval.Some? && e.approval.value.patchDigest == Some(Sha256(outcome.patch))
  {
    SucceedCommits(d, now, d.run, i, outcome);
  }

  /**
   The approved bytes are the delivered bytes.  A report of success with a patch pins that patch;
   whatever happens afterwards, the newest PATCH artifact, the digest under approval and the digest
   of the delivery job, once there is one, are those of this patch.
   */
  lemma ApprovedBytesAreDelivered(s: Sys, i: nat, outcome: Outcome, ops: seq<Op>)
    requires Reachable(s) && outcome.patch != "" && MaySucceed(s.d, s.now, i)
    ensures var e := Exec(Next(s, Succeed(i, outcome)), ops).d;
      && e.run.status.Succeeded?
      && NewestDigest(e.patches) == Some(Sha256(outcome.patch))
      && e.approval.Some? && e.approval.value.patchDigest == Some(Sha256(outcome.patch))
      && (e.job.Some? ==> e.job.value.patchDigest == Sha256(outcome.patch))
  {
    EveryRunKeepsInv(s);
    SuccessPins(s.d, s.now, s.ttl, i, outcome);
    var f := Next(s, Succeed(i, outcome));
    StepKeepsInv(s, Succeed(i, outcome));
    TerminalIsFinal(f, ops);
    ExecKeepsInv(f, ops);
  }
}
