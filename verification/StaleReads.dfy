/**
 Claim, completion and lease expiry look at rows before they take the lock.

 Here the attempt row is read in one state, the run row in a later one and the transaction commits
 in a third, with any transactions of anyone in between.  Each then either changes nothing or
 commits what it would have committed had it read everything under the lock.
 */
module StaleReads {
  import opened Wrappers
  import opened Rows
  import opened RunProtocol
  import opened RunSystem
  import opened RunInvariant
  import opened JointProof
  import opened LogProof
  import opened TimeProof
  import opened RunTheorems
  import opened Fencing

  /** If an attempt is running now, it was running at every moment since it was first seen. */
  lemma RunningSince(s0: Sys, ops: seq<Op>, i: nat)
    requires Inv(s0) && i < |s0.d.attempts| && AttemptRunning(Exec(s0, ops).d, i)
    ensures AttemptRunning(s0.d, i) && s0.d.run.status.Running?
  {
    if !AttemptRunning(s0.d, i) {
      EndedAttemptsNeverChange(s0, ops, i);
      assert false;
    }
  }

  /** If the attempt still runs at commit, the run was running whenever it was looked at before. */
  lemma SeenRunning(s0: Sys, first: seq<Op>, second: seq<Op>, i: nat)
    requires Reachable(s0) && AttemptRunning(s0.d, i)
    ensures var s1 := Exec(s0, first); var s2 := Exec(s1, second);
      AttemptRunning(s2.d, i) ==> s1.d.run.status.Running? && Executing(s2.d, i)
  {
    var s1 := Exec(s0, first);
    var s2 := Exec(s1, second);
    EveryRunKeepsInv(s0);
    ExecKeepsInv(s0, first);
    ExecKeepsInv(s1, second);
    AttemptsOnlyGrow(s0, first);
    if AttemptRunning(s2.d, i) {
      RunningSince(s1, second, i);
    }
  }

  lemma {:induction false} AttemptsOnlyGrow(s: Sys, ops: seq<Op>)
    requires Inv(s)
    ensures |s.d.attempts| <= |Exec(s, ops).d.attempts|
    decreases |ops|
  {
    if ops != [] {
      StepKeepsInv(s, ops[0]);
      StepOfAttempts(s.d, s.now, s.ttl, ops[0]);
      AttemptsOnlyGrow(Next(s, ops[0]), ops[1..]);
    }
  }

  // ---- Claim ----

  lemma ClaimIgnoresStaleRead(d: Db, now: int, ttl: nat, pre: Run, no: pos, token: nat)
    requires forall i :: 0 <= i < |d.attempts| ==> d.attempts[i].no == i + 1
    requires pre.activeStartedAt.None? && (d.run.status.Dispatched? ==> d.run.activeStartedAt.None?)
    ensures var tx := ClaimTx(d, now, ttl, pre, no, token);
      tx == None || tx == Some(Apply(d, now, ttl, Claim(no, token)))
  {
    LatestIsCount(d.attempts);
  }

  lemma DispatchedIsIdle(s: Sys)
    requires Reachable(s)
    ensures s.d.run.cfg.snapshot && s.d.run.status.Dispatched? ==> s.d.run.activeStartedAt.None?
    ensures forall i :: 0 <= i < |s.d.attempts| ==> s.d.attempts[i].no == i + 1
  {
    EveryRunKeepsInv(s);
  }

  lemma {:induction false} ExecKeepsConfig(s: Sys, ops: seq<Op>)
    requires Inv(s)
    ensures Exec(s, ops).d.run.cfg == s.d.run.cfg && Exec(s, ops).ttl == s.ttl
    decreases |ops|
  {
    if ops != [] {
      ConfigNeverChanges(s.d, s.now, s.ttl, ops[0]);
      StepKeepsInv(s, ops[0]);
      ExecKeepsConfig(Next(s, ops[0]), ops[1..]);
    }
  }

  /** The claim of a snapshot run: stale looks at the run and at the attempts. */
  lemma StaleClaimIsAtomic(s0: Sys, first: seq<Op>, second: seq<Op>, no: pos, token: nat)
    requires Reachable(s0) && s0.d.run.cfg.snapshot
    ensures var s1 := Exec(s0, first); var s2 := Exec(s1, second);
      var after := ClaimAttempt(s2.d, s2.now, s2.ttl, s0.d.run, HasNo(s1.d.attempts, no), no, token);
      after == s2.d || after == Next(s2, Claim(no, token)).d
  {
    var s1 := Exec(s0, first);
    var s2 := Exec(s1, second);
    ReachableGoesOn(s0, first);
    ReachableGoesOn(s1, second);
    DispatchedIsIdle(s0);
    DispatchedIsIdle(s2);
    ConfigSurvives(s0, first, second);
    if s0.d.run.status.Dispatched? {
      ClaimIgnoresStaleRead(s2.d, s2.now, s2.ttl, s0.d.run, no, token);
    }
  }

  lemma ConfigSurvives(s0: Sys, first: seq<Op>, second: seq<Op>)
    requires Reachable(s0)
    ensures Exec(Exec(s0, first), second).d.run.cfg == s0.d.run.cfg
  {
    EveryRunKeepsInv(s0);
    ExecKeepsConfig(s0, first);
    ExecKeepsInv(s0, first);
    ExecKeepsConfig(Exec(s0, first), second);
  }

  // ---- Completion and expiry ----

  /** What a fixture run stores as used tokens, from the count it read and the count reported. */
  function StoredTokens(count: nat, outcome: Outcome): nat {
    if outcome.usedTokens.Some? && outcome.usedTokens.value > count then outcome.usedTokens.value else count
  }

  /** The one way in which the rows read before the lock can show in the rows written. */
  predicate ReadsAgree(d: Db, pre: Run, outcome: Outcome) {
    || d.run.cfg.snapshot
    || outcome.usedTokens.None?
    || StoredTokens(pre.usedTokens, outcome) == StoredTokens(d.run.usedTokens, outcome)
  }

  /** The stale run row makes no difference if, and only if, the token counts agree. */
  lemma FailureIgnoresStaleRead(d: Db, now: int, pre: Run, i: nat, code: FailureCode, outcome: Outcome)
    requires Executing(d, i) && pre.status.Running?
    ensures FailTx(d, now, pre, i, code, outcome) == FailTx(d, now, d.run, i, code, outcome)
         <==> ReadsAgree(d, pre, outcome)
    ensures FailTx(d, now, pre, i, code, outcome).Some? && FailTx(d, now, d.run, i, code, outcome).Some?
  {
    var d1 := PersistExtras(d, now, pre, i, outcome);
    var d2 := PersistExtras(d, now, d.run, i, outcome);
    FailCommits(d, now, pre, i, code, outcome);
    FailCommits(d, now, d.run, i, code, outcome);
    if ReadsAgree(d, pre, outcome) {
      assert d1 == d2;
    } else {
      PolicyHasShape(Ended(d1, now, i, AttemptStatus.Failed, Some(code)), now, i, i + 1, code);
      PolicyHasShape(Ended(d2, now, i, AttemptStatus.Failed, Some(code)), now, i, i + 1, code);
      assert d1.run.usedTokens != d2.run.usedTokens;
    }
  }

  /** The report commits the same with the run row `pre` as with the row under the lock. */
  predicate SameFailure(d: Db, now: int, pre: Run, i: nat, code: FailureCode, outcome: Outcome) {
    FailTx(d, now, pre, i, code, outcome).GetOr(d) == FailTx(d, now, d.run, i, code, outcome).GetOr(d)
  }

  /** With the attempt running or ended, as it turns out under the lock. */
  lemma FailureUnderLock(d: Db, now: int, pre: Run, i: nat, code: FailureCode, outcome: Outcome)
    ensures (AttemptRunning(d, i) ==> Executing(d, i) && pre.status.Running?) ==>
      (SameFailure(d, now, pre, i, code, outcome) <==> (!AttemptRunning(d, i) || ReadsAgree(d, pre, outcome)))
  {
    if Executing(d, i) && pre.status.Running? {
      FailureIgnoresStaleRead(d, now, pre, i, code, outcome);
      GetBoth(FailTx(d, now, pre, i, code, outcome), FailTx(d, now, d.run, i, code, outcome), d);
    } else if !AttemptRunning(d, i) {
      EndedFails(d, now, pre, i, code, outcome);
      EndedFails(d, now, d.run, i, code, outcome);
    }
  }

  lemma EndedFails(d: Db, now: int, pre: Run, i: nat, code: FailureCode, outcome: Outcome)
    requires !AttemptRunning(d, i)
    ensures FailTx(d, now, pre, i, code, outcome).GetOr(d) == d
  {
  }

  lemma GetBoth<T>(a: Option<T>, b: Option<T>, otherwise: T)
    requires a.Some? && b.Some?
    ensures a.GetOr(otherwise) == b.GetOr(otherwise) <==> a == b
  {
  }

  /**
   A reported failure commits what the atomic step would, unless the attempt is no longer running
   (then nothing) or it is a fixture run whose token count moved past the report meanwhile.
   */
  lemma StaleFailureIsAtomic(s0: Sys, first: seq<Op>, second: seq<Op>, i: nat, code: FailureCode, outcome: Outcome)
    requires Reachable(s0) && AttemptRunning(s0.d, i)
    ensures var s1 := Exec(s0, first); var s2 := Exec(s1, second);
      (FailTx(s2.d, s2.now, s1.d.run, i, code, outcome).GetOr(s2.d) == Next(s2, Fail(i, code, outcome)).d)
        <==> (!AttemptRunning(s2.d, i) || ReadsAgree(s2.d, s1.d.run, outcome))
  {
    var s1 := Exec(s0, first);
    var s2 := Exec(s1, second);
    SeenRunning(s0, first, second, i);
    FailureUnderLock(s2.d, s2.now, s1.d.run, i, code, outcome);
  }

  /** A lease found expired, on any run. */
  lemma StaleExpiryIsAtomic(s0: Sys, first: seq<Op>, second: seq<Op>, i: nat)
    requires Reachable(s0) && AttemptRunning(s0.d, i)
    ensures var s1 := Exec(s0, first); var s2 := Exec(s1, second);
      ExpireTx(s2.d, s2.now, s1.d.run, i).GetOr(s2.d) == Next(s2, Expire(i)).d
  {
    var s1 := Exec(s0, first);
    var s2 := Exec(s1, second);
    SeenRunning(s0, first, second, i);
    if AttemptRunning(s2.d, i) && s2.d.attempts[i].leaseExpiresAt <= s2.now {
      ExpireCommits(s2.d, s2.now, s1.d.run, i);
      ExpireCommits(s2.d, s2.now, s2.d.run, i);
    }
  }

  lemma SuccessUnderLock(d: Db, now: int, pre: Run, i: nat, outcome: Outcome)
    requires AttemptRunning(d, i) ==> Executing(d, i) && d.approval.None?
    ensures (SucceedTx(d, now, pre, i, outcome).GetOr(d) == SucceedTx(d, now, d.run, i, outcome).GetOr(d))
        <==> (!MaySucceed(d, now, i) || ReadsAgree(d, pre, outcome))
  {
    if AttemptRunning(d, i) {
      SucceedCommits(d, now, pre, i, outcome);
      SucceedCommits(d, now, d.run, i, outcome);
      FinishedStores(d, now, pre, i, outcome);
    }
  }

  /** The stale row shows in the tokens stored, or not at all. */
  lemma FinishedStores(d: Db, now: int, pre: Run, i: nat, outcome: Outcome)
    requires i < |d.attempts|
    ensures Finished(d, now, pre, i, outcome) == Finished(d, now, d.run, i, outcome) <==> ReadsAgree(d, pre, outcome)
  {
    if !ReadsAgree(d, pre, outcome) {
      assert Finished(d, now, pre, i, outcome).run.usedTokens != Finished(d, now, d.run, i, outcome).run.usedTokens;
    }
  }

  /** A reported success, likewise; the status read before the lock is not used at all. */
  lemma StaleSuccessIsAtomic(s0: Sys, first: seq<Op>, second: seq<Op>, i: nat, outcome: Outcome)
    requires Reachable(s0) && AttemptRunning(s0.d, i)
    ensures var s1 := Exec(s0, first); var s2 := Exec(s1, second);
      (SucceedTx(s2.d, s2.now, s1.d.run, i, outcome).GetOr(s2.d) == Next(s2, Succeed(i, outcome)).d)
        <==> (!MaySucceed(s2.d, s2.now, i) || ReadsAgree(s2.d, s1.d.run, outcome))
  {
    var s1 := Exec(s0, first);
    var s2 := Exec(s1, second);
    SeenRunning(s0, first, second, i);
    ReachableGoesOn(s0, first);
    ReachableGoesOn(s1, second);
    NoApprovalYet(s2);
    SuccessUnderLock(s2.d, s2.now, s1.d.run, i, outcome);
  }

  lemma NoApprovalYet(s: Sys)
    requires Reachable(s)
    ensures s.d.run.status.Running? ==> s.d.approval.None?
  {
    EveryRunKeepsInv(s);
  }

  lemma FailureStores(d: Db, now: int, pre: Run, i: nat, code: FailureCode, outcome: Outcome)
    requires Executing(d, i) && pre.status.Running?
    ensures FailTx(d, now, pre, i, code, outcome).Some?
    ensures FailTx(d, now, pre, i, code, outcome).value.run.usedTokens
         == PersistExtras(d, now, pre, i, outcome).run.usedTokens
  {
    FailCommits(d, now, pre, i, code, outcome);
    PolicyHasShape(Ended(PersistExtras(d, now, pre, i, outcome), now, i, AttemptStatus.Failed, Some(code)),
                   now, i, i + 1, code);
  }

  /**
   A fixture run can lose tokens: a checkpoint stores 500 between the unlocked read and the commit
   of a report of 100, and the commit writes 100.
   */
  lemma FixtureReportOverwritesCheckpoint()
    ensures exists s0: Sys, between: seq<Op>, outcome: Outcome ::
      && Reachable(s0) && !s0.d.run.cfg.snapshot && AttemptRunning(s0.d, 0)
      && var s2 := Exec(s0, between);
        var after := FailTx(s2.d, s2.now, s0.d.run, 0, VerifyStaticFailed, outcome).GetOr(s2.d);
        after.run.usedTokens < s2.d.run.usedTokens
  {
    var cfg := Config(false, false, 3, 200_000, 900, None, PatchOnly);
    var s0 := Exec(Start(cfg, 0, 30_000), [Claim(1, 7)]);
    var between := [Save(Checkpoint(0, None, map[]), 500)];
    FixtureClaimed(cfg);
    assert between[1..] == [];
    assert Exec(s0, between) == Next(s0, between[0]);
    ReportOverwrites(s0);
  }

  lemma FixtureClaimed(cfg: Config)
    requires cfg == Config(false, false, 3, 200_000, 900, None, PatchOnly)
    ensures var s := Exec(Start(cfg, 0, 30_000), [Claim(1, 7)]);
      && Reachable(s) && s.d.run.cfg == cfg && s.d.run.usedTokens == 0 && s.now == 0
      && s.d.run.status.Running? && s.d.task.status.Running?
      && s.d.attempts == [Attempt(1, 7, AttemptStatus.Running, None, 30_000)]
  {
    var ops := [Claim(1, 7)];
    assert ops[1..] == [];
    assert Exec(Start(cfg, 0, 30_000), ops) == Next(Start(cfg, 0, 30_000), Claim(1, 7));
  }

  lemma ReportOverwrites(s: Sys)
    requires !s.d.run.cfg.snapshot && s.d.run.usedTokens == 0 && Executing(s.d, 0)
    requires s.d.attempts[0].leaseExpiresAt > s.now
    ensures var e := Next(s, Save(Checkpoint(0, None, map[]), 500));
      var after := FailTx(e.d, e.now, s.d.run, 0, VerifyStaticFailed, Outcome("", Some(100), Some(1))).GetOr(e.d);
      after.run.usedTokens < e.d.run.usedTokens
  {
    var e := Next(s, Save(Checkpoint(0, None, map[]), 500));
    assert e.d.run.usedTokens == 500;
    FailureStores(e.d, e.now, s.d.run, 0, VerifyStaticFailed, Outcome("", Some(100), Some(1)));
  }
}
