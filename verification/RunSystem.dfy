/**
 One run as a transition system: any transaction may come next, from anyone, at any time.

 Each step is one transaction with its unlocked reads taken at lock time; StaleReads shows that
 reads taken earlier make no difference.  The clock only moves forward.
 */
module RunSystem {
  import opened Wrappers
  import opened Rows
  import opened EventLog
  import opened RunProtocol
  import opened DeliveryRows

  datatype Op =
    | Advance(ms: nat)
    | Claim(no: pos, token: nat)
    | Beat(attempt: nat, token: nat)
    | Succeed(attempt: nat, outcome: Outcome)
    | Fail(attempt: nat, code: FailureCode, outcome: Outcome)
    | Expire(attempt: nat)
    | Save(checkpoint: Checkpoint, reported: nat)
    | Phase(attempt: nat, token: nat, phase: string)
    | Pin(attempt: nat, token: nat, image: string, resolved: Option<string>)
    | PauseRun(attempt: nat, token: nat, reason: string, patch: string)
    | CancelRun
    | ResumeRun
    | ReserveCall(attempt: nat, token: nat, id: nat, amount: nat)
    | SettleUsage(id: nat, used: Option<nat>)
    | IngestEvent(key: string, payload: string)
    | Deliver(op: DeliveryOp)

  /**
   An observer's account of when the run was RUNNING, kept beside the rows and never read by a
   transaction: since when, for how long in all, and the same with each interval rounded up.
   */
  datatype Clockwork = Clockwork(runningSince: int, activeMs: int, roundedSeconds: int)

  datatype Sys = Sys(d: Db, now: int, ttl: nat, clock: Clockwork)

  function Apply(d: Db, now: int, ttl: nat, op: Op): Db {
    match op
    case Advance(_) => d
    case Claim(no, token) => ClaimAttempt(d, now, ttl, d.run, HasNo(d.attempts, no), no, token)
    case Beat(i, token) => HeartbeatTx(d, now, ttl, i, token)
    case Succeed(i, outcome) => SucceedTx(d, now, d.run, i, outcome).GetOr(d)
    case Fail(i, code, outcome) => FailTx(d, now, d.run, i, code, outcome).GetOr(d)
    case Expire(i) => ExpireTx(d, now, d.run, i).GetOr(d)
    case Save(cp, reported) => SaveCheckpoint(d, now, cp, reported)
    case Phase(i, token, phase) => SetPhase(d, now, i, token, phase)
    case Pin(i, token, image, resolved) => PinEnvironment(d, now, i, token, image, resolved)
    case PauseRun(i, token, reason, patch) => PauseTx(d, now, i, token, reason, patch)
    case CancelRun => CancelTx(d, now)
    case ResumeRun => ResumeTx(d, now)
    case ReserveCall(i, token, id, amount) => ReserveTx(d, now, i, token, id, amount)
    case SettleUsage(id, used) => SettleTx(d, id, used)
    case IngestEvent(key, payload) => d.(log := Ingest(d.log, key, payload))
    case Deliver(dop) => DeliveryStep(d, now, dop)
  }

  function Observe(c: Clockwork, before: Db, after: Db, now: int): Clockwork {
    if !before.run.status.Running? && after.run.status.Running? then c.(runningSince := now)
    else if before.run.status.Running? && !after.run.status.Running? then
      c.(activeMs := c.activeMs + (now - c.runningSince),
         roundedSeconds := c.roundedSeconds + CeilSeconds(now - c.runningSince))
    else c
  }

  function Next(s: Sys, op: Op): Sys {
    var e := Apply(s.d, s.now, s.ttl, op);
    Sys(e, if op.Advance? then s.now + op.ms else s.now, s.ttl, Observe(s.clock, s.d, e, s.now))
  }

  function Exec(s: Sys, ops: seq<Op>): Sys
    decreases |ops|
  {
    if ops == [] then s else Exec(Next(s, ops[0]), ops[1..])
  }

  predicate ValidConfig(cfg: Config) { cfg.maxAttempts >= 1 && cfg.budgetTokens >= 1 && cfg.budgetSeconds >= 1 }

  function CreationStatus(cfg: Config): RunStatus { if cfg.snapshot then RunStatus.Dispatched else RunStatus.Pending }

  /** Confirming a draft writes a dispatched run; creating a fixture task also logs the dispatch. */
  function Created(cfg: Config, now: int): Db {
    var run := Run(cfg, RunStatus.Dispatched, "QUEUED", 0, 0, None, None);
    var log := Log(0, []);
    Db(run, Task(TaskStatus.Queued, None), [], [], [Message(BuildCommand(run, 1, None), now)], [], [], [],
       if cfg.snapshot then log else Emit(log, StatusChange(RunStatus.Pending, RunStatus.Dispatched)),
       None, None)
  }

  function Start(cfg: Config, now: int, ttl: nat): Sys {
    Sys(Created(cfg, now), now, ttl, Clockwork(now, 0, 0))
  }

  lemma {:induction false} ExecAppend(s: Sys, first: seq<Op>, second: seq<Op>)
    ensures Exec(s, first + second) == Exec(Exec(s, first), second)
    decreases |first|
  {
    if first == [] {
      assert first + second == second;
    } else {
      assert (first + second)[1..] == first[1..] + second;
      ExecAppend(Next(s, first[0]), first[1..], second);
    }
  }

  lemma ExecOne(s: Sys, a: Op)
    ensures Exec(s, [a]) == Next(s, a)
  {
    assert [a][1..] == [];
    assert Exec(Next(s, a), []) == Next(s, a);
  }

  lemma ExecTwo(s: Sys, a: Op, b: Op)
    ensures Exec(s, [a, b]) == Next(Next(s, a), b)
  {
    assert [a, b][1..] == [b];
    ExecOne(Next(s, a), b);
  }
}
