/**
 From the outbox to a worker: commands are published at least once, delivered at least once and
 executed at most once.
 */
module Dispatch {
  import opened Rows
  import opened RunProtocol
  import opened DeliveryRows
  import opened RunSystem
  import opened RunInvariant
  import opened JointProof
  import opened LogProof
  import opened TimeProof
  import opened RunTheorems
  import opened RunMoves

  const QUIET_MS: nat := 60_000

  /** Whether a command is waiting to be published, or when it last was. */
  datatype Pub = Waiting | PublishedAt(time: int)

  /**
   An entry of the command stream: a copy of one command of the outbox, with the attempt number that
   the command carries.  A pending entry may be delivered again.
   */
  datatype Entry = Entry(command: nat, attemptNo: pos, addedAt: int, acked: bool)

  /** What is known of the commands of a fixture run: only `seen` is kept anywhere, the rest is history. */
  datatype Memory = Memory(
    seen: set<nat>,           // commands that some worker has taken up
    onWay: multiset<nat>,     // entries that were taken up and whose claim has not arrived yet
    lost: set<nat>)           // commands with a claim that never arrived

  datatype Queue = Queue(
    core: Sys,
    marks: seq<Pub>,          // for the commands of the outbox, in order
    stream: seq<Entry>,
    memory: Memory,
    executed: seq<pos>,       // attempt numbers that a worker has started to execute, in order
    touchedAt: int)           // when the rows of the run last changed

  datatype Act =
    | Core(op: Op)                             // anything but a claim
    | Publish(command: nat, marked: bool)      // XADD, then the mark, unless the process dies between
    | Reconcile                                // a published command of a quiet run waits again
    | TakeUp(entry: nat)                       // a worker remembers a fixture command, or finds it remembered
    | Ask(entry: nat, token: nat, heard: bool, done: bool)
                                               // the claim of a worker that took the entry up arrives, or
                                               // is lost on the way there (not done) or back (not heard)
    | Acknowledge(entry: nat)                  // the execution is over
    | Forget(command: nat)                     // the memory of a fixture command runs out

  function MarkOf(q: Queue, command: nat): Pub {
    if command < |q.marks| then q.marks[command] else Waiting
  }

  function Mark(marks: seq<Pub>, command: nat, mark: Pub): seq<Pub>
    decreases if command < |marks| then 0 else command - |marks| + 1
  {
    if command < |marks| then marks[command := mark] else Mark(marks + [Waiting], command, mark)
  }

  function RunCore(q: Queue, op: Op): Queue {
    var e := Next(q.core, op);
    q.(core := e, touchedAt := if e.d == q.core.d then q.touchedAt else q.core.now)
  }

  function Ack(stream: seq<Entry>, entry: nat): seq<Entry> {
    if entry < |stream| then stream[entry := stream[entry].(acked := true)] else stream
  }

  /** The claim of an entry's command, as the control plane carries it out. */
  predicate Grants(d: Db, no: pos, token: nat) {
    !HasNo(d.attempts, no) && d.run.status.Dispatched? && no == LatestNo(d.attempts) + 1
    && no <= d.run.cfg.maxAttempts && !HasToken(d.attempts, token)
  }

  function AfterClaim(q: Queue, entry: nat, token: nat, heard: bool, done: bool): Queue
    requires entry < |q.stream|
  {
    var no := q.stream[entry].attemptNo;
    if !done then q                                                // stays pending
    else
      var q1 := RunCore(q, Claim(no, token));
      if !heard then q1                                            // stays pending too
      else if Grants(q.core.d, no, token) then q1.(executed := q1.executed + [no])
      else q1.(stream := Ack(q1.stream, entry))                    // refused or a duplicate
  }

  /** The claim of a fixture command is over, one way or the other. */
  function Arrived(m: Memory, entry: nat, command: nat, done: bool): Memory {
    m.(onWay := m.onWay - multiset{entry}, lost := if done then m.lost else m.lost + {command})
  }

  function After(q: Queue, act: Act): Queue {
    match act
    case Core(op) => if op.Claim? then q else RunCore(q, op)
    case Publish(command, marked) =>
      if command >= |q.core.d.outbox| || !MarkOf(q, command).Waiting?
         || q.core.d.outbox[command].notBefore > q.core.now then q
      else
        q.(stream := q.stream + [Entry(command, q.core.d.outbox[command].command.attemptNo, q.core.now, false)],
           marks := if marked then Mark(q.marks, command, PublishedAt(q.core.now)) else q.marks)
    case Reconcile =>
      var newest := |q.core.d.outbox| - 1;
      if newest < 0 || !q.core.d.run.status.Dispatched? || q.touchedAt >= q.core.now - QUIET_MS
         || MarkOf(q, newest).Waiting? || MarkOf(q, newest).time >= q.core.now - QUIET_MS then q
      else q.(marks := Mark(q.marks, newest, Waiting))
    case TakeUp(entry) =>
      if entry >= |q.stream| || q.core.d.run.cfg.snapshot then q
      else if q.stream[entry].command in q.memory.seen then q.(stream := Ack(q.stream, entry))
      else
        q.(memory := q.memory.(seen := q.memory.seen + {q.stream[entry].command},
                               onWay := q.memory.onWay + multiset{entry}))
    case Ask(entry, token, heard, done) =>
      if entry >= |q.stream| || HasToken(q.core.d.attempts, token) then q
      else if q.core.d.run.cfg.snapshot then AfterClaim(q, entry, token, heard, done)
      else if entry !in q.memory.onWay then q
      else
        AfterClaim(q, entry, token, heard, done).(memory := Arrived(q.memory, entry, q.stream[entry].command, done))
    case Acknowledge(entry) =>
      if entry < |q.stream| && q.stream[entry].attemptNo in q.executed then q.(stream := Ack(q.stream, entry)) else q
    case Forget(command) => q.(memory := q.memory.(seen := q.memory.seen - {command}))
  }

  function AfterAll(q: Queue, acts: seq<Act>): Queue
    decreases |acts|
  {
    if acts == [] then q else AfterAll(After(q, acts[0]), acts[1..])
  }

  function Fresh(core: Sys): Queue { Queue(core, [], [], Memory({}, multiset{}, {}), [], core.now) }

  // ---- What every act keeps ----

  /** Each entry is the copy of a command that was due; no attempt was started twice. */
  ghost predicate QueueOk(d: Db, stream: seq<Entry>, executed: seq<pos>) {
    && (forall k :: 0 <= k < |stream| ==>
          && stream[k].command < |d.outbox|
          && d.outbox[stream[k].command].command.attemptNo == stream[k].attemptNo
          && d.outbox[stream[k].command].notBefore <= stream[k].addedAt)
    && (forall i :: 0 <= i < |executed| ==> executed[i] <= |d.attempts|)
    && (forall i, j :: 0 <= i < j < |executed| ==> executed[i] < executed[j])
  }

  /** The attempt has been started, or never will be. */
  predicate Settled(d: Db, no: pos) { no <= |d.attempts| || d.run.status.Cancelled? }

  /** A claim of the command was lost, or is still on its way. */
  ghost predicate Open(stream: seq<Entry>, m: Memory, command: nat) {
    command in m.lost || exists k :: k in m.onWay && k < |stream| && stream[k].command == command
  }

  /** An entry is acknowledged for good reason, unless a claim of its command is open. */
  ghost predicate AcksOk(d: Db, stream: seq<Entry>, m: Memory) {
    forall k :: 0 <= k < |stream| && stream[k].acked ==>
      Settled(d, stream[k].attemptNo) || Open(stream, m, stream[k].command)
  }

  /** A command that is remembered is settled, unless a claim of it is open. */
  ghost predicate MemoryOk(d: Db, stream: seq<Entry>, m: Memory) {
    forall c :: c in m.seen ==> c < |d.outbox| && (Settled(d, d.outbox[c].command.attemptNo) || Open(stream, m, c))
  }

  ghost predicate Aligned(d: Db, stream: seq<Entry>, executed: seq<pos>, m: Memory) {
    && QueueOk(d, stream, executed) && AcksOk(d, stream, m) && MemoryOk(d, stream, m)
    && (d.run.cfg.snapshot ==> m == Memory({}, multiset{}, {}))
  }

  /** The claim of a command that was sent settles its number, whether it is granted or refused. */
  lemma ClaimSettles(d: Db, now: int, ttl: nat, command: nat, token: nat)
    requires JointOk(d) && OutboxOk(d) && command < |d.outbox| && !HasToken(d.attempts, token)
    ensures var no := d.outbox[command].command.attemptNo;
      var e := Apply(d, now, ttl, Claim(no, token));
      && Settled(e, no)
      && (Grants(d, no, token) ==> no == |d.attempts| + 1 <= |e.attempts|)
  {
    LatestIsCount(d.attempts);
  }

  lemma OutboxGrows(d: Db, now: int, ttl: nat, op: Op)
    requires JointOk(d)
    ensures d.outbox <= Apply(d, now, ttl, op).outbox
  {
    match op
    case Fail(_, _, _) => FailureStep(d, now, ttl, op);
    case Expire(_) => FailureStep(d, now, ttl, op);
    case Succeed(i, outcome) => if AttemptRunning(d, i) { SucceedCommits(d, now, d.run, i, outcome); }
    case Deliver(dop) => DeliveryStepKeepsCoupling(d, now, dop);
    case _ =>
  }

  /** Settled commands stay settled. */
  ghost predicate Onward(d: Db, e: Db) {
    && d.outbox <= e.outbox && |d.attempts| <= |e.attempts|
    && (d.run.status.Cancelled? ==> e.run.status.Cancelled?)
  }

  lemma StepGoesOn(s: Sys, op: Op)
    requires Inv(s)
    ensures Inv(Next(s, op)) && Onward(s.d, Next(s, op).d)
  {
    StepKeepsInv(s, op);
    StepMoves(s.d, s.now, s.ttl, op);
    OutboxGrows(s.d, s.now, s.ttl, op);
  }

  lemma OnwardKeepsAligned(d: Db, e: Db, stream: seq<Entry>, executed: seq<pos>, m: Memory)
    requires Onward(d, e) && e.run.cfg == d.run.cfg
    ensures Aligned(d, stream, executed, m) ==> Aligned(e, stream, executed, m)
  {
  }

  ghost predicate WorldOk(q: Queue) { Inv(q.core) && Aligned(q.core.d, q.stream, q.executed, q.memory) }

  lemma CoreKeepsWorld(q: Queue, op: Op)
    requires WorldOk(q)
    ensures WorldOk(RunCore(q, op)) && Onward(q.core.d, RunCore(q, op).core.d)
  {
    StepGoesOn(q.core, op);
    ConfigNeverChanges(q.core.d, q.core.now, q.core.ttl, op);
    OnwardKeepsAligned(q.core.d, Next(q.core, op).d, q.stream, q.executed, q.memory);
  }

  /** Starting an attempt that is newer than all before. */
  lemma StartAligns(d: Db, e: Db, stream: seq<Entry>, executed: seq<pos>, m: Memory, no: pos)
    requires QueueOk(d, stream, executed) && Aligned(e, stream, executed, m)
    requires no == |d.attempts| + 1 <= |e.attempts|
    ensures Aligned(e, stream, executed + [no], m)
  {
  }

  /** The stream may grow, and entries may be acknowledged, if that is justified. */
  lemma StreamAligns(d: Db, stream: seq<Entry>, more: seq<Entry>, executed: seq<pos>, m: Memory)
    requires Aligned(d, stream, executed, m) && QueueOk(d, more, executed) && |stream| <= |more|
    requires forall k :: 0 <= k < |stream| ==> more[k].command == stream[k].command
    requires forall k :: 0 <= k < |more| && more[k].acked ==>
      (k < |stream| && stream[k].acked) || Settled(d, more[k].attemptNo) || Open(stream, m, more[k].command)
    ensures Aligned(d, more, executed, m)
  {
    forall c | Open(stream, m, c) ensures Open(more, m, c) {
    }
    forall k | 0 <= k < |more| && more[k].acked ensures Settled(d, more[k].attemptNo) || Open(more, m, more[k].command) {
      if k < |stream| && stream[k].acked {
        assert Settled(d, stream[k].attemptNo) || Open(stream, m, stream[k].command);
        assert d.outbox[stream[k].command].command.attemptNo == stream[k].attemptNo;
      }
    }
  }

  lemma AckAligns(d: Db, stream: seq<Entry>, executed: seq<pos>, m: Memory, entry: nat)
    requires Aligned(d, stream, executed, m)
    requires entry < |stream| ==> Settled(d, stream[entry].attemptNo) || Open(stream, m, stream[entry].command)
    ensures Aligned(d, Ack(stream, entry), executed, m)
  {
    StreamAligns(d, stream, Ack(stream, entry), executed, m);
  }

  /** Taking a command up opens a claim of it. */
  lemma TakeUpAligns(d: Db, stream: seq<Entry>, executed: seq<pos>, m: Memory, entry: nat)
    requires Aligned(d, stream, executed, m) && !d.run.cfg.snapshot && entry < |stream|
    ensures Aligned(d, stream, executed,
                    m.(seen := m.seen + {stream[entry].command}, onWay := m.onWay + multiset{entry}))
  {
    var e := m.(seen := m.seen + {stream[entry].command}, onWay := m.onWay + multiset{entry});
    assert entry in e.onWay;
    forall c | Open(stream, m, c) ensures Open(stream, e, c) {
      if c !in m.lost {
        var k :| k in m.onWay && k < |stream| && stream[k].command == c;
        assert k in e.onWay;
      }
    }
  }

  /** A claim that has arrived settles its command; one that has not is lost. */
  lemma ArrivalAligns(d: Db, stream: seq<Entry>, executed: seq<pos>, m: Memory, entry: nat, done: bool)
    requires Aligned(d, stream, executed, m) && !d.run.cfg.snapshot && entry < |stream|
    requires done ==> Settled(d, stream[entry].attemptNo)
    ensures Aligned(d, stream, executed, Arrived(m, entry, stream[entry].command, done))
  {
    var command := stream[entry].command;
    var e := Arrived(m, entry, command, done);
    forall c | Open(stream, m, c) && c != command ensures Open(stream, e, c) {
      if c !in m.lost {
        var k :| k in m.onWay && k < |stream| && stream[k].command == c;
        assert k in e.onWay;
      }
    }
  }

  lemma ClaimKeepsWorld(q: Queue, entry: nat, token: nat, heard: bool)
    requires WorldOk(q) && entry < |q.stream| && !HasToken(q.core.d.attempts, token)
    ensures var f := AfterClaim(q, entry, token, heard, true);
      && f.core == RunCore(q, Claim(q.stream[entry].attemptNo, token)).core
      && Aligned(f.core.d, f.stream, f.executed, q.memory)
      && |f.stream| == |q.stream| && f.stream[entry] == q.stream[entry].(acked := f.stream[entry].acked)
      && Settled(f.core.d, q.stream[entry].attemptNo)
  {
    var no := q.stream[entry].attemptNo;
    var e := RunCore(q, Claim(no, token)).core.d;
    CoreKeepsWorld(q, Claim(no, token));
    ClaimSettles(q.core.d, q.core.now, q.core.ttl, q.stream[entry].command, token);
    if Grants(q.core.d, no, token) {
      StartAligns(q.core.d, e, q.stream, q.executed, q.memory, no);
    } else {
      AckAligns(e, q.stream, q.executed, q.memory, entry);
    }
  }

  lemma TakeUpKeepsAligned(q: Queue, entry: nat)
    requires WorldOk(q)
    ensures var f := After(q, TakeUp(entry)); Aligned(f.core.d, f.stream, f.executed, f.memory)
  {
    if entry < |q.stream| && !q.core.d.run.cfg.snapshot {
      if q.stream[entry].command in q.memory.seen {
        AckAligns(q.core.d, q.stream, q.executed, q.memory, entry);
      } else {
        TakeUpAligns(q.core.d, q.stream, q.executed, q.memory, entry);
      }
    }
  }

  lemma AskKeepsAligned(q: Queue, entry: nat, token: nat, heard: bool, done: bool)
    requires WorldOk(q)
    ensures var f := After(q, Ask(entry, token, heard, done)); Aligned(f.core.d, f.stream, f.executed, f.memory)
  {
    if entry < |q.stream| && !HasToken(q.core.d.attempts, token) {
      ClaimKeepsWorld(q, entry, token, heard);
      var f := AfterClaim(q, entry, token, heard, done);
      if !q.core.d.run.cfg.snapshot && entry in q.memory.onWay {
        ConfigNeverChanges(q.core.d, q.core.now, q.core.ttl, Claim(q.stream[entry].attemptNo, token));
        ArrivalAligns(f.core.d, f.stream, f.executed, q.memory, entry, done);
      }
    }
  }

  /** The transaction that an act runs, if any. */
  function OpOf(q: Queue, act: Act): Op {
    match act
    case Core(op) => if op.Claim? then Advance(0) else op
    case Ask(entry, token, _, done) =>
      if entry < |q.stream| && !HasToken(q.core.d.attempts, token) && done
         && (q.core.d.run.cfg.snapshot || entry in q.memory.onWay)
      then Claim(q.stream[entry].attemptNo, token)
      else Advance(0)
    case _ => Advance(0)
  }

  lemma ActRunsOp(q: Queue, act: Act)
    ensures After(q, act).core == Next(q.core, OpOf(q, act))
  {
  }

  lemma PublishKeepsAligned(q: Queue, command: nat, marked: bool)
    requires WorldOk(q)
    ensures var f := After(q, Publish(command, marked)); Aligned(f.core.d, f.stream, f.executed, f.memory)
  {
    StreamAligns(q.core.d, q.stream, After(q, Publish(command, marked)).stream, q.executed, q.memory);
  }

  lemma ActAligns(q: Queue, act: Act)
    requires WorldOk(q)
    ensures var f := After(q, act); Aligned(f.core.d, f.stream, f.executed, f.memory)
  {
    match act
    case Core(op) => CoreKeepsWorld(q, op);
    case Publish(command, marked) => PublishKeepsAligned(q, command, marked);
    case TakeUp(entry) => TakeUpKeepsAligned(q, entry);
    case Ask(entry, token, heard, done) => AskKeepsAligned(q, entry, token, heard, done);
    case Acknowledge(entry) =>
      if entry < |q.stream| && q.stream[entry].attemptNo in q.executed {
        AckAligns(q.core.d, q.stream, q.executed, q.memory, entry);
      }
    case _ =>
  }

  lemma ActKeepsWorld(q: Queue, act: Act)
    requires WorldOk(q)
    ensures WorldOk(After(q, act))
  {
    ActAligns(q, act);
    ActRunsOp(q, act);
    StepKeepsInv(q.core, OpOf(q, act));
  }

  lemma {:induction false} EveryActKeepsWorld(q: Queue, acts: seq<Act>)
    requires WorldOk(q)
    ensures WorldOk(AfterAll(q, acts))
    decreases |acts|
  {
    if acts != [] {
      ActKeepsWorld(q, acts[0]);
      EveryActKeepsWorld(After(q, acts[0]), acts[1..]);
    }
  }

  ghost predicate QueueReachable(q: Queue) {
    exists cfg: Config, now: int, ttl: nat, acts: seq<Act> ::
      ValidConfig(cfg) && q == AfterAll(Fresh(Start(cfg, now, ttl)), acts)
  }

  lemma ReachableIsOk(q: Queue)
    requires QueueReachable(q)
    ensures WorldOk(q)
  {
    var cfg: Config, now: int, ttl: nat, acts: seq<Act> :|
      ValidConfig(cfg) && q == AfterAll(Fresh(Start(cfg, now, ttl)), acts);
    CreationHolds(cfg, now, ttl);
    EveryActKeepsWorld(Fresh(Start(cfg, now, ttl)), acts);
  }

  /**
   No doubled dispatch: however often commands are republished, redelivered, reclaimed or lost on the
   way, every attempt is started by at most one worker; attempts are numbered 1..n without gaps.
   */
  lemma ExecutedAtMostOnce(q: Queue)
    requires QueueReachable(q)
    ensures forall i, j :: 0 <= i < j < |q.executed| ==> q.executed[i] < q.executed[j]
    ensures forall i :: 0 <= i < |q.executed| ==> 1 <= q.executed[i] <= |q.core.d.attempts|
    ensures forall i :: 0 <= i < |q.core.d.attempts| ==> q.core.d.attempts[i].no == i + 1
  {
    ReachableIsOk(q);
  }

  /**
   No lost dispatch: an entry is only acknowledged when its attempt was started or never will be.  The
   one exception is a fixture command with a claim that was lost, or is still on its way.
   */
  lemma AcknowledgedIsSettled(q: Queue, k: nat)
    requires QueueReachable(q) && k < |q.stream| && q.stream[k].acked
    ensures q.stream[k].attemptNo <= |q.core.d.attempts| || q.core.d.run.status.Cancelled?
         || (!q.core.d.run.cfg.snapshot && Open(q.stream, q.memory, q.stream[k].command))
  {
    ReachableIsOk(q);
  }

  /** No command reaches a worker before its backoff is over. */
  lemma BackoffIsKept(q: Queue, k: nat)
    requires QueueReachable(q) && k < |q.stream|
    ensures q.stream[k].command < |q.core.d.outbox|
    ensures q.core.d.outbox[q.stream[k].command].notBefore <= q.stream[k].addedAt
  {
    ReachableIsOk(q);
  }

  // ---- A dispatched run can always be started ----

  lemma {:induction false} MarkSets(marks: seq<Pub>, command: nat, mark: Pub)
    ensures command < |Mark(marks, command, mark)| && Mark(marks, command, mark)[command] == mark
    decreases if command < |marks| then 0 else command - |marks| + 1
  {
    if command >= |marks| {
      MarkSets(marks + [Waiting], command, mark);
    }
  }

  /** How long to wait until the newest command is due and, if it was published, published again. */
  function Patience(q: Queue): nat
    requires q.core.d.outbox != []
  {
    var newest := |q.core.d.outbox| - 1;
    NonNegative(q.core.d.outbox[newest].notBefore - q.core.now)
      + NonNegative(q.touchedAt - q.core.now)
      + (if MarkOf(q, newest).Waiting? then 0 else NonNegative(MarkOf(q, newest).time - q.core.now))
      + QUIET_MS + 1
  }

  /** The queue after waiting, reconciling, and the end of the memory of the newest command. */
  function Rested(q: Queue): Queue
    requires q.core.d.outbox != []
  {
    After(After(After(q, Core(Advance(Patience(q)))), Reconcile), Forget(|q.core.d.outbox| - 1))
  }

  lemma WaitingAgain(q: Queue)
    requires q.core.d.outbox != [] && q.core.d.run.status.Dispatched?
    ensures var newest, e := |q.core.d.outbox| - 1, Rested(q);
      && e.core.d == q.core.d && e.stream == q.stream && e.executed == q.executed && newest !in e.memory.seen
      && MarkOf(e, newest).Waiting? && e.core.d.outbox[newest].notBefore <= e.core.now
  {
    MarkSets(q.marks, |q.core.d.outbox| - 1, Waiting);
  }

  /**
   Progress: from every dispatched state, however its newest command was published, taken up or lost
   before, waiting, reconciling and publishing once more lets a worker start the next attempt.  For a
   fixture run the waiting lasts until the command is no longer remembered.
   */
  lemma DispatchedCanStart(q: Queue, token: nat)
    requires QueueReachable(q) && q.core.d.run.status.Dispatched?
    requires !HasToken(q.core.d.attempts, token)
    ensures q.core.d.outbox != []
    ensures var p := After(Rested(q), Publish(|q.core.d.outbox| - 1, true));
      var f := After(After(p, TakeUp(|q.stream|)), Ask(|q.stream|, token, true, true));
      && f.core.d.run.status.Running?
      && f.executed == q.executed + [|q.core.d.attempts| + 1]
  {
    ReachableIsOk(q);
    WaitingAgain(q);
    LatestIsCount(q.core.d.attempts);
    var e := Rested(q);
    var p := After(e, Publish(|q.core.d.outbox| - 1, true));
    assert p.stream == q.stream + [Entry(|q.core.d.outbox| - 1, |q.core.d.attempts| + 1, e.core.now, false)];
    StartGrants(p, |q.stream|, token);
  }

  lemma StartGrants(q: Queue, entry: nat, token: nat)
    requires entry < |q.stream| && Grants(q.core.d, q.stream[entry].attemptNo, token)
    requires q.stream[entry].command !in q.memory.seen
    ensures var f := After(After(q, TakeUp(entry)), Ask(entry, token, true, true));
      f.core.d.run.status.Running? && f.executed == q.executed + [q.stream[entry].attemptNo]
  {
    var t := After(q, TakeUp(entry));
    assert t.core == q.core && t.stream == q.stream && t.executed == q.executed;
    ClaimStarts(t, entry, token);
  }

  /** A claim that is on its way makes up for whatever was acknowledged meanwhile. */
  lemma ClaimStarts(q: Queue, entry: nat, token: nat)
    requires entry < |q.stream| && (q.core.d.run.cfg.snapshot || entry in q.memory.onWay)
    requires Grants(q.core.d, q.stream[entry].attemptNo, token)
    ensures var f := After(q, Ask(entry, token, true, true));
      && f.core.d.run.status.Running? && f.executed == q.executed + [q.stream[entry].attemptNo]
      && f.stream == q.stream
  {
  }

  /**
   No entry stays for ever: a worker whose claim is answered starts the attempt and acknowledges the
   entry when the execution is over, or acknowledges it at once because the claim was refused; and
   then nothing has changed.
   */
  lemma AnsweredIsAcknowledged(q: Queue, entry: nat, token: nat)
    requires QueueReachable(q) && entry < |q.stream| && !HasToken(q.core.d.attempts, token)
    requires q.core.d.run.cfg.snapshot || entry in q.memory.onWay
    ensures var f := After(q, Ask(entry, token, true, true));
      if q.core.d.run.status.Dispatched? && q.stream[entry].attemptNo == |q.core.d.attempts| + 1
      then
        && f.core.d.run.status.Running? && f.executed == q.executed + [q.stream[entry].attemptNo]
        && After(f, Acknowledge(entry)).stream == q.stream[entry := q.stream[entry].(acked := true)]
      else f.core.d == q.core.d && f.stream == q.stream[entry := q.stream[entry].(acked := true)]
  {
    ReachableIsOk(q);
    LatestIsCount(q.core.d.attempts);
    if q.core.d.run.status.Dispatched? && q.stream[entry].attemptNo == |q.core.d.attempts| + 1 {
      ClaimStarts(q, entry, token);
    } else {
      RefusedIsAcknowledged(q, entry, token);
    }
  }

  lemma RefusedIsAcknowledged(q: Queue, entry: nat, token: nat)
    requires entry < |q.stream| && !HasToken(q.core.d.attempts, token)
    requires q.core.d.run.cfg.snapshot || entry in q.memory.onWay
    ensures !Grants(q.core.d, q.stream[entry].attemptNo, token) ==>
      var f := After(q, Ask(entry, token, true, true));
      f.core.d == q.core.d && f.stream == q.stream[entry := q.stream[entry].(acked := true)]
  {
  }

  // ---- The exception: fixture runs ----

  /**
   A worker that takes up a fixture command which could be claimed acknowledges it instead, unstarted,
   exactly if the command is still remembered; and it is only remembered then because a claim of it
   was lost on its way to the control plane, or is still going there.
   */
  lemma FixtureCommandSwallowed(q: Queue, entry: nat, token: nat)
    requires QueueReachable(q) && !q.core.d.run.cfg.snapshot && entry < |q.stream| && !q.stream[entry].acked
    requires Grants(q.core.d, q.stream[entry].attemptNo, token)
    ensures After(q, TakeUp(entry)).stream[entry].acked <==> q.stream[entry].command in q.memory.seen
    ensures q.stream[entry].command in q.memory.seen ==> Open(q.stream, q.memory, q.stream[entry].command)
  {
    ReachableIsOk(q);
    LatestIsCount(q.core.d.attempts);
  }

  /** It happens: the first claim of a fixture command is lost on its way, and the second worker swallows it. */
  lemma FixtureCommandCanBeSwallowed(cfg: Config, now: int, ttl: nat)
    requires ValidConfig(cfg) && !cfg.snapshot
    ensures var q := After(After(Fresh(Start(cfg, now, ttl)), Publish(0, true)), TakeUp(0));
      var e := After(After(q, Ask(0, 7, false, false)), TakeUp(0));
      && Grants(e.core.d, 1, 8) && e.core.d.run.status.Dispatched? && e.memory.onWay == multiset{}
      && e.stream == [Entry(0, 1, now, true)] && e.executed == []
  {
    var q0 := Fresh(Start(cfg, now, ttl));
    MarkSets([], 0, PublishedAt(now));
    var q1 := After(q0, Publish(0, true));
    assert q1.stream == [Entry(0, 1, now, false)] && q1.core == q0.core && q1.memory == q0.memory;
    LostAndSwallowed(q1, now);
  }

  lemma LostAndSwallowed(q: Queue, now: int)
    requires !q.core.d.run.cfg.snapshot && !HasToken(q.core.d.attempts, 7)
    requires q.stream == [Entry(0, 1, now, false)] && q.memory == Memory({}, multiset{}, {})
    ensures After(After(After(q, TakeUp(0)), Ask(0, 7, false, false)), TakeUp(0))
         == q.(stream := [Entry(0, 1, now, true)], memory := Memory({0}, multiset{}, {0}))
  {
    var q1 := After(q, TakeUp(0));
    assert q1 == q.(memory := Memory({0}, multiset{0}, {}));
    var q2 := After(q1, Ask(0, 7, false, false));
    assert q2 == q.(memory := Memory({0}, multiset{}, {0}));
  }
}
