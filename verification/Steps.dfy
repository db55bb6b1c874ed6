/**
 What each transaction comes to in a run: exactly when it has an effect, and which one.

 The transactions themselves ask for more than this: numbers against the largest one, columns against
 columns, statuses that no committed run has.  In every reachable state that comes down to what
 is said here in terms of the rows alone.
 */
module Steps {
  import opened Wrappers
  import opened Rows
  import opened RunProtocol
  import opened RunSystem
  import opened RunInvariant
  import opened JointProof
  import opened RunTheorems

  predicate Runs(d: Db, i: nat) { i < |d.attempts| && d.attempts[i].status.Running? }

  predicate Leased(s: Sys, i: nat) { Runs(s.d, i) && s.now < s.d.attempts[i].leaseExpiresAt }

  predicate Holds(s: Sys, i: nat, token: nat) { Leased(s, i) && s.d.attempts[i].leaseToken == token }

  predicate BeforeDeadline(s: Sys) { s.d.run.cfg.deadlineAt.None? || s.now < s.d.run.cfg.deadlineAt.value }

  predicate InTime(s: Sys) {
    && BeforeDeadline(s)
    && (s.d.run.activeStartedAt.Some? ==>
          1000 * s.d.run.usedSeconds + (s.now - s.d.run.activeStartedAt.value) < 1000 * s.d.run.cfg.budgetSeconds)
  }

  /** The open interval is closed and charged with its whole seconds, the last one in full. */
  predicate ClosedUp(s: Sys, e: Run) {
    var ms := if s.d.run.activeStartedAt.Some? then s.now - s.d.run.activeStartedAt.value else 0;
    && e.activeStartedAt.None?
    && 1000 * (e.usedSeconds - s.d.run.usedSeconds) - 1000 < ms <= 1000 * (e.usedSeconds - s.d.run.usedSeconds)
  }

  predicate KeepsPatch(before: seq<Patch>, after: seq<Patch>, i: nat, patch: string) {
    after == before + (if patch == "" then [] else [Patch(i, patch)])
  }

  /** A run begins dispatched, with one command: the first attempt, from scratch, at once, with its whole budgets. */
  lemma RunBegins(cfg: Config, now: int, ttl: nat)
    requires ValidConfig(cfg)
    ensures var d := Start(cfg, now, ttl).d;
      && d.run.status.Dispatched? && d.task == Task(TaskStatus.Queued, None)
      && d.outbox == [Message(Command(StartRun, 1, None, cfg.budgetTokens, cfg.budgetSeconds), now)]
      && d.attempts == [] && d.calls == [] && d.checkpoints == [] && d.patches == [] && d.decisions == []
      && d.run.usedTokens == 0 && d.run.usedSeconds == 0 && d.approval.None? && d.job.None?
  {
  }

  // ---- What a worker asks for ----

  /** The claim of a number under a token, if it is granted. */
  ghost predicate Claimed(d: Db, now: int, ttl: nat, e: Db, no: pos, token: nat) {
    && e == d.(run := d.run.(status := RunStatus.Running, activeStartedAt := e.run.activeStartedAt),
               task := d.task.(status := TaskStatus.Running), log := e.log,
               attempts := d.attempts + [Attempt(no, token, AttemptStatus.Running, None, now + ttl)])
    && (d.run.cfg.snapshot ==> e.run.activeStartedAt == Some(now))
  }

  lemma ClaimOf(d: Db, now: int, ttl: nat, no: pos, token: nat)
    requires JointOk(d) && (d.run.cfg.snapshot && d.run.status.Dispatched? ==> d.run.activeStartedAt.None?)
    requires d.run.status.Dispatched? ==> |d.attempts| < d.run.cfg.maxAttempts
    ensures var e := Apply(d, now, ttl, Claim(no, token));
      if d.run.status.Dispatched? && no == |d.attempts| + 1 && !HasToken(d.attempts, token)
      then Claimed(d, now, ttl, e, no, token) else e == d
  {
    LatestIsCount(d.attempts);
  }

  lemma ClaimStep(s: Sys, no: pos, token: nat)
    requires Reachable(s)
    ensures var d, e := s.d, Next(s, Claim(no, token)).d;
      if d.run.status.Dispatched? && no == |d.attempts| + 1
         && (forall j :: 0 <= j < |d.attempts| ==> d.attempts[j].leaseToken != token)
      then Claimed(d, s.now, s.ttl, e, no, token) else e == d
  {
    EveryRunKeepsInv(s);
    ClaimOf(s.d, s.now, s.ttl, no, token);
    assert HasToken(s.d.attempts, token) <==> exists j :: 0 <= j < |s.d.attempts| && s.d.attempts[j].leaseToken == token;
  }

  lemma BeatStep(s: Sys, i: nat, token: nat)
    requires Reachable(s)
    ensures var d, e := s.d, Next(s, Beat(i, token)).d;
      if Holds(s, i, token) && InTime(s)
      then e == d.(attempts := d.attempts[i := d.attempts[i].(leaseExpiresAt := s.now + s.ttl)])
      else e == d
  {
    EveryRunKeepsInv(s);
  }

  lemma SaveStep(s: Sys, cp: Checkpoint, reported: nat)
    requires Reachable(s)
    ensures var d, e := s.d, Next(s, Save(cp, reported)).d;
      if Leased(s, cp.attempt)
      then
        && e == d.(run := d.run.(usedTokens := e.run.usedTokens), checkpoints := d.checkpoints + [cp])
        && (d.run.cfg.snapshot ==> e.run.usedTokens == d.run.usedTokens)
        && (!d.run.cfg.snapshot ==> e.run.usedTokens == if reported > d.run.usedTokens then reported else d.run.usedTokens)
      else e == d
  {
    EveryRunKeepsInv(s);
  }

  lemma PhaseStep(s: Sys, i: nat, token: nat, phase: string)
    requires Reachable(s)
    ensures var d, e := s.d, Next(s, Phase(i, token, phase)).d;
      if Holds(s, i, token) && InTime(s)
      then
        var n := |d.log.rows| + 1;
        e == d.(run := d.run.(phase := phase),
                log := Log(n, d.log.rows + [EventRow(n, Synthetic(n), PhaseChange(d.run.phase, phase))]))
      else e == d
  {
    EveryRunKeepsInv(s);
  }

  lemma PinStep(s: Sys, i: nat, token: nat, image: string, resolved: Option<string>)
    requires Reachable(s)
    ensures var d, e := s.d, Next(s, Pin(i, token, image, resolved)).d;
      if Holds(s, i, token) && InTime(s) && d.run.imageId in {None, Some(image)} && resolved in {None, Some(image)}
      then e == d.(run := d.run.(imageId := Some(image)))
      else e == d
  {
    EveryRunKeepsInv(s);
  }

  lemma ReserveStep(s: Sys, i: nat, token: nat, id: nat, amount: nat)
    requires Reachable(s)
    ensures var d, e := s.d, Next(s, ReserveCall(i, token, id, amount)).d;
      if && Holds(s, i, token) && InTime(s)
         && (forall k :: 0 <= k < |d.calls| ==> d.calls[k].id != id)
         && (amount == 0 || LedgerTotal(d.calls) + amount <= d.run.cfg.budgetTokens)
         && (d.run.activeStartedAt.None? ==> d.run.usedSeconds < d.run.cfg.budgetSeconds)
      then e == d.(calls := d.calls + [Call(id, amount, None, CallStatus.Reserved)])
      else e == d
  {
    EveryRunKeepsInv(s);
    if k :| 0 <= k < |s.d.calls| && s.d.calls[k].id == id {
      assert FindCall(s.d.calls, id).Some? by { NotFound(s.d.calls, id); }
    }
  }

  lemma NotFound(calls: seq<Call>, id: nat)
    ensures FindCall(calls, id).None? <==> forall k :: 0 <= k < |calls| ==> calls[k].id != id
  {
  }

  /** A usage is stored in row `k`, and the run's total follows the ledger. */
  ghost predicate Stored(d: Db, e: Db, k: nat, used: Option<nat>)
    requires k < |d.calls|
  {
    && e == d.(run := d.run.(usedTokens := LedgerTotal(e.calls)), calls := e.calls)
    && |e.calls| == |d.calls| && (forall j :: 0 <= j < |d.calls| && j != k ==> e.calls[j] == d.calls[j])
    && e.calls[k].id == d.calls[k].id && e.calls[k].reserved == d.calls[k].reserved && e.calls[k].used == used
    && (e.calls[k].status.Settled? <==> used.Some?)
  }

  lemma SettleOf(d: Db, k: nat, used: Option<nat>)
    requires k < |d.calls|
    ensures LedgerOk(d) ==>
      var e := SettleTx(d, d.calls[k].id, used);
      if d.calls[k].used.None? then Stored(d, e, k, used) else e == d
  {
    if LedgerOk(d) {
      var at := FindCall(d.calls, d.calls[k].id);
      NotFound(d.calls, d.calls[k].id);
      assert at.Some? && !(at.value < k) && !(k < at.value);
    }
  }

  /** A usage is stored once, in the row of its call. */
  lemma SettleStep(s: Sys, k: nat, used: Option<nat>)
    requires Reachable(s) && k < |s.d.calls|
    ensures var d, e := s.d, Next(s, SettleUsage(s.d.calls[k].id, used)).d;
      if d.calls[k].used.None? then Stored(d, e, k, used) else e == d
  {
    EveryRunKeepsInv(s);
    SettleOf(s.d, k, used);
  }

  lemma UnknownCall(s: Sys, id: nat, used: Option<nat>)
    requires forall k :: 0 <= k < |s.d.calls| ==> s.d.calls[k].id != id
    ensures Next(s, SettleUsage(id, used)).d == s.d
  {
  }

  lemma SuccessStep(s: Sys, i: nat, outcome: Outcome)
    requires Reachable(s)
    ensures var d, e := s.d, Next(s, Succeed(i, outcome)).d;
      if Leased(s, i) && (d.run.cfg.snapshot ==> forall k :: 0 <= k < |d.calls| ==> d.calls[k].used.Some?)
      then
        && e == d.(run := e.run, task := d.task.(status := TaskStatus.AwaitingApproval), log := e.log,
                   attempts := d.attempts[i := d.attempts[i].(status := AttemptStatus.Succeeded)],
                   patches := e.patches, approval := e.approval)
        && KeepsPatch(d.patches, e.patches, i, outcome.patch)
        && e.run == d.run.(status := RunStatus.Succeeded, phase := "AWAITING_APPROVAL", usedTokens := e.run.usedTokens,
                           usedSeconds := e.run.usedSeconds, activeStartedAt := e.run.activeStartedAt)
        && e.approval == Some(Approval(ApprovalStatus.Pending,
                                       if outcome.patch == "" then None else Some(Sha256(outcome.patch)), None))
        && Accounted(s, e.run, outcome)
      else e == d
  {
    EveryRunKeepsInv(s);
    if Runs(s.d, i) {
      SucceedCommits(s.d, s.now, s.d.run, i, outcome);
    }
  }

  /** A snapshot run is charged for its interval; a fixture run for what its worker reports. */
  predicate Accounted(s: Sys, e: Run, outcome: Outcome) {
    if s.d.run.cfg.snapshot then ClosedUp(s, e) && e.usedTokens == s.d.run.usedTokens
    else
      && e.activeStartedAt == s.d.run.activeStartedAt
      && e.usedSeconds == s.d.run.usedSeconds + outcome.usedSeconds.GetOr(0)
      && e.usedTokens == (if outcome.usedTokens.Some? && outcome.usedTokens.value > s.d.run.usedTokens
                          then outcome.usedTokens.value else s.d.run.usedTokens)
  }

  // ---- A worker that keeps beating keeps its lease ----

  /** Some time passes, then a heartbeat comes; and so on. */
  function Beating(s: Sys, i: nat, token: nat, gaps: seq<nat>): Sys
    decreases |gaps|
  {
    if gaps == [] then s else Beating(Next(Next(s, Advance(gaps[0])), Beat(i, token)), i, token, gaps[1..])
  }

  function Sum(gaps: seq<nat>): nat { if gaps == [] then 0 else gaps[0] + Sum(gaps[1..]) }

  /** In time, `ms` milliseconds from now. */
  predicate InTimeFor(s: Sys, ms: nat) { InTime(s.(now := s.now + ms)) }

  lemma TimePasses(s: Sys, ms: nat)
    ensures Next(s, Advance(ms)) == s.(now := s.now + ms)
  {
  }

  /** After a heartbeat nothing has changed but the time and the end of the lease. */
  ghost predicate Renewed(s: Sys, e: Sys, i: nat, now: int)
    requires i < |s.d.attempts|
  {
    && e.now == now && e.ttl == s.ttl
    && e.d == s.d.(attempts := s.d.attempts[i := s.d.attempts[i].(leaseExpiresAt := now + s.ttl)])
  }

  lemma OneBeat(s: Sys, i: nat, token: nat, gap: nat)
    requires Runs(s.d, i) && s.d.attempts[i].leaseToken == token
    requires s.now + gap < s.d.attempts[i].leaseExpiresAt && InTimeFor(s, gap)
    ensures Reachable(s) ==> Renewed(s, Next(Next(s, Advance(gap)), Beat(i, token)), i, s.now + gap)
  {
    if Reachable(s) {
      ReachableNext(s, Advance(gap));
      TimePasses(s, gap);
      BeatRenews(s.(now := s.now + gap), i, token);
      RenewedLater(s, gap, Next(s.(now := s.now + gap), Beat(i, token)), i);
    }
  }

  lemma RenewedLater(s: Sys, gap: nat, e: Sys, i: nat)
    requires i < |s.d.attempts|
    ensures Renewed(s.(now := s.now + gap), e, i, s.now + gap) ==> Renewed(s, e, i, s.now + gap)
  {
  }

  lemma BeatRenews(s: Sys, i: nat, token: nat)
    requires i < |s.d.attempts|
    ensures Reachable(s) && Holds(s, i, token) && InTime(s) ==> Renewed(s, Next(s, Beat(i, token)), i, s.now)
  {
    if Reachable(s) {
      BeatStep(s, i, token);
    }
  }

  /**
   As long as its deadline and its time budget last, a worker whose heartbeats are less than a lease
   apart keeps its lease, however many there are; and nothing else changes.
   */
  lemma {:induction false} BeatsKeepLease(s: Sys, i: nat, token: nat, gaps: seq<nat>)
    requires Reachable(s) && Holds(s, i, token) && InTimeFor(s, Sum(gaps))
    requires forall k :: 0 <= k < |gaps| ==> gaps[k] < s.ttl
    requires gaps != [] ==> s.now + gaps[0] < s.d.attempts[i].leaseExpiresAt
    ensures var e := Beating(s, i, token, gaps);
      && e.now == s.now + Sum(gaps) && Holds(e, i, token)
      && e.d == s.d.(attempts := s.d.attempts[i := s.d.attempts[i].(leaseExpiresAt := e.d.attempts[i].leaseExpiresAt)])
      && (gaps != [] ==> e.d.attempts[i].leaseExpiresAt == e.now + s.ttl)
    decreases |gaps|
  {
    if gaps != [] {
      var rest := gaps[1..];
      assert forall k :: 0 <= k < |rest| ==> rest[k] == gaps[k + 1];
      OneBeat(s, i, token, gaps[0]);
      ReachableNext(s, Advance(gaps[0]));
      ReachableNext(Next(s, Advance(gaps[0])), Beat(i, token));
      var m := Next(Next(s, Advance(gaps[0])), Beat(i, token));
      BeatsKeepLease(m, i, token, rest);
      var e := Beating(s, i, token, gaps);
      assert m.d.attempts[i := e.d.attempts[i]] == s.d.attempts[i := e.d.attempts[i]];
    }
  }

  // ---- What its user asks for ----

  lemma PauseStep(s: Sys, i: nat, token: nat, reason: string, patch: string)
    requires Reachable(s)
    ensures var d, e := s.d, Next(s, PauseRun(i, token, reason, patch)).d;
      if Holds(s, i, token)
      then
        && e == d.(run := e.run, task := Task(TaskStatus.NeedsAttention, Some(Said(reason))), log := e.log,
                   attempts := d.attempts[i := d.attempts[i].(status := AttemptStatus.Failed)], patches := e.patches)
        && KeepsPatch(d.patches, e.patches, i, patch)
        && e.run == d.run.(status := RunStatus.Interrupted, phase := "NEEDS_ATTENTION",
                           usedSeconds := e.run.usedSeconds, activeStartedAt := None)
        && ClosedUp(s, e.run)
      else e == d
  {
    EveryRunKeepsInv(s);
  }

  lemma CancelStep(s: Sys)
    requires Reachable(s)
    ensures var d, e := s.d, Next(s, CancelRun).d;
      if d.run.status.Dispatched? || d.run.status.Running? || d.run.status.Interrupted?
      then
        && e == d.(run := e.run, task := d.task.(status := TaskStatus.Cancelled), log := e.log, attempts := e.attempts)
        && e.run == d.run.(status := RunStatus.Cancelled, phase := "CANCELLED", usedSeconds := e.run.usedSeconds,
                           activeStartedAt := None)
        && ClosedUp(s, e.run)
        && |e.attempts| == |d.attempts|
        && (forall j :: 0 <= j < |d.attempts| ==>
              e.attempts[j] == if d.attempts[j].status.Running?
                               then d.attempts[j].(status := AttemptStatus.Failed, failureCode := Some(CancelledByUser))
                               else d.attempts[j])
      else e == d
  {
    EveryRunKeepsInv(s);
  }

  /** The texts after which another attempt makes no sense. */
  const REFUTED: set<string> := {"NOT_REPRODUCED", "EVIDENCE_MISMATCH", "CONTRACT_CHANGED"}

  lemma ResumeStep(s: Sys)
    requires Reachable(s)
    ensures var d, e := s.d, Next(s, Op.ResumeRun).d;
      if && d.run.status.Interrupted? && d.run.cfg.snapshot && |d.attempts| < d.run.cfg.maxAttempts && BeforeDeadline(s)
         && d.run.usedTokens < d.run.cfg.budgetTokens && d.run.usedSeconds < d.run.cfg.budgetSeconds
         && (forall k :: 0 <= k < |d.calls| ==> d.calls[k].used.Some?)
         && !(exists text :: text in REFUTED && d.task.attentionReason == Some(Said(text)))
      then
        && e == d.(run := d.run.(status := RunStatus.Dispatched, phase := "QUEUED"), task := Task(TaskStatus.Queued, None),
                   log := e.log, outbox := e.outbox)
        && |e.outbox| == |d.outbox| + 1 && e.outbox[..|d.outbox|] == d.outbox
      else e == d
  {
    EveryRunKeepsInv(s);
    LatestIsCount(s.d.attempts);
    assert forall text :: text in REFUTED && s.d.task.attentionReason == Some(Said(text)) ==> ContractRefuted(s.d.task);
    if ContractRefuted(s.d.task) {
      assert s.d.task.attentionReason.value.text in REFUTED;
    }
  }
}
