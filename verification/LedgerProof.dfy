/** Every transaction keeps the token ledger within its budget and the redispatch gate shut. */
module LedgerProof {
  import opened Wrappers
  import opened Rows
  import opened RunProtocol
  import opened DeliveryRows
  import opened RunSystem
  import opened RunInvariant
  import opened JointProof
  import opened LogProof

  function Excess(c: Call): nat {
    if c.used.Some? && c.used.value > c.reserved then c.used.value - c.reserved else 0
  }

  lemma SumsOfAppend(calls: seq<Call>, c: Call)
    ensures LedgerTotal(calls + [c]) == LedgerTotal(calls) + Charge(c)
    ensures Overrun(calls + [c]) == Overrun(calls) + Excess(c)
  {
    assert (calls + [c])[..|calls|] == calls;
  }

  /** Replacing one row moves both sums by the difference of that row. */
  lemma {:induction false} SumsOfUpdate(calls: seq<Call>, i: nat, c: Call)
    requires i < |calls|
    ensures LedgerTotal(calls[i := c]) == LedgerTotal(calls) - Charge(calls[i]) + Charge(c)
    ensures Overrun(calls[i := c]) == Overrun(calls) - Excess(calls[i]) + Excess(c)
    decreases |calls|
  {
    var n := |calls| - 1;
    if i == n {
      assert calls[i := c][..n] == calls[..n];
    } else {
      assert calls[i := c][..n] == calls[..n][i := c];
      SumsOfUpdate(calls[..n], i, c);
    }
  }

  lemma ReserveKeepsLedger(d: Db, now: int, i: nat, token: nat, id: nat, amount: nat)
    requires LedgerOk(d)
    ensures LedgerOk(ReserveTx(d, now, i, token, id, amount))
  {
    if MayReserve(d, now, i, token, id, amount) {
      OneMoreKeepsLedger(d, Call(id, amount, None, CallStatus.Reserved));
    }
  }

  lemma OneMoreKeepsLedger(d: Db, c: Call)
    requires LedgerOk(d) && FindCall(d.calls, c.id).None? && c.used.None? && c.status.Reserved?
    requires AvailableBudget(d.run.cfg.budgetTokens, d.calls) >= c.reserved
    ensures LedgerOk(d.(calls := d.calls + [c]))
  {
    var n, calls := |d.calls|, d.calls + [c];
    SumsOfAppend(d.calls, c);
    assert calls[n] == c && !AllSettled(calls);
    forall i, j | 0 <= i < j < |calls| ensures calls[i].id != calls[j].id {
      assert calls[i] == d.calls[i];
      if j < n { assert calls[j] == d.calls[j]; }
    }
    forall i | 0 <= i < |calls| ensures calls[i].status.Settled? <==> calls[i].used.Some? {
      if i < n { assert calls[i] == d.calls[i]; }
    }
  }

  lemma SettleKeepsLedger(d: Db, id: nat, used: Option<nat>)
    requires LedgerOk(d)
    ensures LedgerOk(SettleTx(d, id, used))
  {
    var at := FindCall(d.calls, id);
    if at.Some? {
      SumsOfUpdate(d.calls, at.value, SettleCall(d.calls[at.value], used));
    }
  }

  /** The rows the ledger is about are the same before and after. */
  predicate SameLedger(d: Db, e: Db) {
    e.calls == d.calls && e.run.cfg == d.run.cfg && (d.run.cfg.snapshot ==> e.run.usedTokens == d.run.usedTokens)
  }

  lemma EndedKeepsLedgerRows(d: Db, now: int, i: nat, status: AttemptStatus, code: Option<FailureCode>, failure: FailureCode)
    requires i < |d.attempts| && d.task.status.Running?
    ensures SameLedger(d, PolicyResult(Ended(d, now, i, status, code), now, i, i + 1, failure))
  {
    PolicyHasShape(Ended(d, now, i, status, code), now, i, i + 1, failure);
  }

  lemma FailureKeepsLedgerRows(d: Db, now: int, ttl: nat, op: Op)
    requires JointOk(d) && (op.Fail? || op.Expire?)
    ensures SameLedger(d, Apply(d, now, ttl, op))
  {
    match op
    case Fail(i, code, outcome) =>
      if AttemptRunning(d, i) {
        FailCommits(d, now, d.run, i, code, outcome);
        EndedKeepsLedgerRows(PersistExtras(d, now, d.run, i, outcome), now, i, AttemptStatus.Failed, Some(code), code);
      }
    case Expire(i) =>
      if AttemptRunning(d, i) && d.attempts[i].leaseExpiresAt <= now {
        ExpireCommits(d, now, d.run, i);
        EndedKeepsLedgerRows(d, now, i, AttemptStatus.LeaseExpired, Some(WorkerLost), WorkerLost);
      }
  }

  lemma OtherKeepsLedgerRows(d: Db, now: int, ttl: nat, op: Op)
    requires JointOk(d) && !op.Fail? && !op.Expire? && !op.ReserveCall? && !op.SettleUsage?
    ensures SameLedger(d, Apply(d, now, ttl, op))
  {
    match op
    case Deliver(dop) => DeliveryStepKeepsCoupling(d, now, dop);
    case Succeed(i, outcome) => if AttemptRunning(d, i) { SucceedCommits(d, now, d.run, i, outcome); }
    case _ =>
  }

  lemma StepKeepsLedger(d: Db, now: int, ttl: nat, op: Op)
    requires JointOk(d) && LedgerOk(d)
    ensures LedgerOk(Apply(d, now, ttl, op))
  {
    match op
    case ReserveCall(i, token, id, amount) => ReserveKeepsLedger(d, now, i, token, id, amount);
    case SettleUsage(id, used) => SettleKeepsLedger(d, id, used);
    case Fail(_, _, _) => FailureKeepsLedgerRows(d, now, ttl, op);
    case Expire(_) => FailureKeepsLedgerRows(d, now, ttl, op);
    case _ => OtherKeepsLedgerRows(d, now, ttl, op);
  }

  // ---- The redispatch gate ----

  /** A run that the policy sends out again had nothing unresolved and budget left. */
  lemma PolicyGates(d: Db, now: int, i: nat, no: pos, code: FailureCode)
    requires d.run.status.Interrupted?
    ensures GateOk(PolicyResult(d, now, i, no, code))
  {
  }

  lemma FailKeepsGate(d: Db, now: int, ttl: nat, i: nat, code: FailureCode, outcome: Outcome)
    requires (AttemptRunning(d, i) ==> Executing(d, i)) && GateOk(d)
    ensures GateOk(Apply(d, now, ttl, Fail(i, code, outcome)))
  {
    if AttemptRunning(d, i) {
      FailCommits(d, now, d.run, i, code, outcome);
      PolicyGates(Ended(PersistExtras(d, now, d.run, i, outcome), now, i, AttemptStatus.Failed, Some(code)),
                  now, i, i + 1, code);
    }
  }

  lemma ExpireKeepsGate(d: Db, now: int, ttl: nat, i: nat)
    requires (AttemptRunning(d, i) ==> Executing(d, i)) && GateOk(d)
    ensures GateOk(Apply(d, now, ttl, Expire(i)))
  {
    if AttemptRunning(d, i) && d.attempts[i].leaseExpiresAt <= now {
      ExpireCommits(d, now, d.run, i);
      PolicyGates(Ended(d, now, i, AttemptStatus.LeaseExpired, Some(WorkerLost)), now, i, i + 1, WorkerLost);
    }
  }

  lemma ControlKeepsGate(d: Db, now: int, ttl: nat, op: Op)
    requires JointOk(d) && OutboxOk(d) && GateOk(d) && !op.Fail? && !op.Expire? && !op.Succeed? && !op.Deliver?
    ensures GateOk(Apply(d, now, ttl, op))
  {
  }

  lemma StepKeepsGate(d: Db, now: int, ttl: nat, op: Op)
    requires JointOk(d) && OutboxOk(d) && GateOk(d)
    ensures GateOk(Apply(d, now, ttl, op))
  {
    match op
    case Fail(i, code, outcome) => FailKeepsGate(d, now, ttl, i, code, outcome);
    case Expire(i) => ExpireKeepsGate(d, now, ttl, i);
    case Deliver(dop) => DeliveryStepKeepsCoupling(d, now, dop);
    case Succeed(i, outcome) => if AttemptRunning(d, i) { SucceedCommits(d, now, d.run, i, outcome); }
    case _ => ControlKeepsGate(d, now, ttl, op);
  }
}
