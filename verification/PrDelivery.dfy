/**
 Delivering an approved patch as a pull request: one worker that may die after any step, the hosting
 service it pushes to, and everyone else.

 A delivery goes through its stages one at a time; between two of them anybody may act on the run,
 on the branch or on the target.  A new delivery only starts when the one before has ended or died.
 */
module PrDelivery {
  import opened Wrappers
  import opened Rows
  import opened RunProtocol
  import opened DeliveryRows
  import opened RunSystem
  import opened RunInvariant
  import opened JointProof
  import opened RunTheorems
  import opened DeliveryTheorems
  import opened Fencing

  /** Base, patch, message, author and dates are fixed for a job: its commit is a function of the patch. */
  function CommitOf(content: string): Digest { Sha256("commit " + content) }

  /** A pull request from the job's branch; `marked` if its body carries the marker of the job. */
  datatype Pr = Pr(url: string, marked: bool)

  /** `pushed` remembers what deliveries have written to the branch. */
  datatype Hub = Hub(prs: seq<Pr>, branch: Option<Digest>, target: Digest, pushed: seq<Digest>)

  datatype Stage =
    | ListPrs
    | CompareFirst
    | CommitPatch
    | LookUpBranch(commit: Digest)
    | ComparePush(commit: Digest, push: bool)
    | LeasePush(commit: Digest, push: bool)
    | PushBranch(commit: Digest, push: bool)
    | ComparePost
    | LeasePost
    | PostPr
    | Record(url: string)

  /** `targets` and `slack` remember what its checks have seen: the target branch, and the time left on the lease. */
  datatype Worker =
    | Idle
    | Busy(token: nat, pinned: Option<Digest>, stage: Stage, targets: seq<Digest>, slack: seq<int>)

  datatype World = World(core: Sys, hub: Hub, worker: Worker, expected: Digest)

  /** How a step ends: as it should, with an error of the network or the service, or in death. */
  datatype Luck = Fine | Error(done: bool) | Death(done: bool)

  datatype Act =
    | Core(op: Op)                  // anything on the run but what belongs to a delivery
    | Tick(token: nat)
    | RenewLease
    | Work(luck: Luck, url: string)
    | OpenPr(url: string)           // somebody opens a pull request from the branch, without the marker
    | MoveBranch(to: Option<Digest>)
    | MoveTarget(sha: Digest)

  predicate BelongsToDelivery(op: Op) {
    && op.Deliver?
    && (op.op.GiveUp? || op.op.ClaimJob? || op.op.Renew? || op.op.PinCommit? || op.op.RecordPr? || op.op.RecordError?)
  }

  function Deliver(w: World, op: DeliveryOp): World { w.(core := Next(w.core, RunSystem.Op.Deliver(op))) }

  predicate Leased(w: World, token: nat) {
    && w.core.d.job.Some? && Owns(w.core.d.job.value, token)
    && w.core.d.job.value.leaseExpiresAt > w.core.now
  }

  function GoTo(w: World, stage: Stage): World
    requires w.worker.Busy?
  {
    w.(worker := w.worker.(stage := stage))
  }

  /** A delivery that throws records the error under its token. */
  function Throw(w: World, conflict: bool): World
    requires w.worker.Busy?
  {
    Deliver(w, RecordError(w.worker.token, conflict, if conflict then "conflict" else "delivery failed")).(worker := Idle)
  }

  function FindMarked(prs: seq<Pr>): Option<Pr> {
    if prs == [] then None else if prs[0].marked then Some(prs[0]) else FindMarked(prs[1..])
  }

  function Compare(w: World, next: Stage): World
    requires w.worker.Busy?
  {
    if w.hub.target == w.expected then
      w.(worker := w.worker.(stage := next, targets := w.worker.targets + [w.hub.target]))
    else Throw(w, true)
  }

  function Assert(w: World, next: Stage): World
    requires w.worker.Busy?
  {
    if Leased(w, w.worker.token) then
      w.(worker := w.worker.(stage := next,
                             slack := w.worker.slack + [w.core.d.job.value.leaseExpiresAt - w.core.now]))
    else Throw(w, true)
  }

  /** One step that nothing disturbs; a new pull request gets the address `url`. */
  function Proceed(w: World, url: string): World
    requires w.worker.Busy?
  {
    match w.worker.stage
    case ListPrs =>
      var found := FindMarked(w.hub.prs);
      if found.Some? then GoTo(w, Record(found.value.url))
      else if w.hub.prs != [] then Throw(w, true)
      else GoTo(w, CompareFirst)
    case CompareFirst => Compare(w, CommitPatch)
    case CommitPatch =>
      if w.core.d.job.None? || w.core.d.patches == []
         || NewestDigest(w.core.d.patches) != Some(w.core.d.job.value.patchDigest) then Throw(w, true)
      else
        var commit := CommitOf(w.core.d.patches[|w.core.d.patches| - 1].content);
        if w.worker.pinned.Some? && w.worker.pinned != Some(commit) then Throw(w, true)
        else GoTo(Deliver(w, PinCommit(commit)), LookUpBranch(commit))
    case LookUpBranch(commit) =>
      if w.hub.branch.Some? && w.hub.branch != Some(commit) then Throw(w, true)
      else GoTo(w, ComparePush(commit, w.hub.branch.None?))
    case ComparePush(commit, push) => Compare(w, LeasePush(commit, push))
    case LeasePush(commit, push) => Assert(w, PushBranch(commit, push))
    case PushBranch(commit, push) =>
      // The push asks the service to refuse it if the branch exists by now.
      if !push then GoTo(w, ComparePost)
      else if w.hub.branch.Some? then Throw(w, false)
      else GoTo(w.(hub := w.hub.(branch := Some(commit), pushed := w.hub.pushed + [commit])), ComparePost)
    case ComparePost => Compare(w, LeasePost)
    case LeasePost => Assert(w, PostPr)
    case PostPr => GoTo(w.(hub := w.hub.(prs := w.hub.prs + [Pr(url, true)])), Record(url))
    case Record(u) => Deliver(w, RecordPr(w.worker.token, u)).(worker := Idle)
  }

  /** What the outside keeps of a step whose worker never hears of it. */
  function Orphaned(w: World, url: string): World
    requires w.worker.Busy?
  {
    var e := Proceed(w, url);
    World(e.core, e.hub, w.worker, w.expected)
  }

  function After(w: World, act: Act): World {
    match act
    case Core(op) => if BelongsToDelivery(op) then w else w.(core := Next(w.core, op))
    case Tick(token) =>
      if w.worker.Busy? then w
      else
        var w1 := Deliver(w, GiveUp);
        if w1.core.d.job.None? || !Claimable(w1.core.d.job.value, w1.core.now) then w1
        else
          var pinned := w1.core.d.job.value.commitSha;
          Deliver(w1, ClaimJob(token)).(worker := Busy(token, pinned, ListPrs, [], []))
    case RenewLease => if w.worker.Busy? then Deliver(w, Renew(w.worker.token)) else w
    case Work(luck, url) =>
      if w.worker.Idle? then w
      else
        (match luck
         case Fine => Proceed(w, url)
         case Error(done) => Throw(if done then Orphaned(w, url) else w, false)
         case Death(done) => (if done then Orphaned(w, url) else w).(worker := Idle))
    case OpenPr(url) => w.(hub := w.hub.(prs := w.hub.prs + [Pr(url, false)]))
    case MoveBranch(to) => w.(hub := w.hub.(branch := to))
    case MoveTarget(sha) => w.(hub := w.hub.(target := sha))
  }

  function AfterAll(w: World, acts: seq<Act>): World
    decreases |acts|
  {
    if acts == [] then w else AfterAll(After(w, acts[0]), acts[1..])
  }

  function MarkedUrls(prs: seq<Pr>): seq<string> {
    if prs == [] then []
    else MarkedUrls(prs[..|prs| - 1]) + (if prs[|prs| - 1].marked then [prs[|prs| - 1].url] else [])
  }

  // ---- What every act keeps ----

  /** The one commit a delivery of this run can make. */
  function TheCommit(d: Db): Option<Digest> {
    if d.patches == [] then None else Some(CommitOf(d.patches[|d.patches| - 1].content))
  }

  ghost predicate StageOk(stage: Stage, marked: seq<string>, commit: Option<Digest>) {
    match stage
    case ListPrs => true
    case LookUpBranch(c) => marked == [] && commit == Some(c)
    case ComparePush(c, _) => marked == [] && commit == Some(c)
    case LeasePush(c, _) => marked == [] && commit == Some(c)
    case PushBranch(c, _) => marked == [] && commit == Some(c)
    case Record(url) => marked == [url]
    case _ => marked == []
  }

  /** The job, the hub and the worker fit together. */
  ghost predicate HubOk(d: Db, hub: Hub, worker: Worker) {
    var marked := MarkedUrls(hub.prs);
    && |marked| <= 1
    && (d.job.None? ==> worker.Idle? && marked == [] && hub.pushed == [])
    && (d.job.Some? ==>
          && TheCommit(d).Some?
          && (forall k :: 0 <= k < |hub.pushed| ==> Some(hub.pushed[k]) == TheCommit(d))
          && (d.job.value.commitSha.Some? ==> d.job.value.commitSha == TheCommit(d))
          && (d.job.value.prUrl.Some? ==> marked == [d.job.value.prUrl.value]))
    && (worker.Busy? ==>
          && d.job.Some? && Owns(d.job.value, worker.token)
          && (worker.pinned.Some? ==> worker.pinned == TheCommit(d))
          && StageOk(worker.stage, marked, TheCommit(d)))
  }

  ghost predicate WorldOk(w: World) { Inv(w.core) && HubOk(w.core.d, w.hub, w.worker) }

  lemma {:induction false} FindMarkedFinds(prs: seq<Pr>)
    ensures FindMarked(prs).None? <==> MarkedUrls(prs) == []
    ensures FindMarked(prs).Some? ==> MarkedUrls(prs) != [] && MarkedUrls(prs)[0] == FindMarked(prs).value.url
  {
    if prs != [] {
      FindMarkedFinds(prs[1..]);
      MarkedOfCons(prs);
    }
  }

  lemma {:induction false} MarkedOfCons(prs: seq<Pr>)
    requires prs != []
    ensures MarkedUrls(prs) == (if prs[0].marked then [prs[0].url] else []) + MarkedUrls(prs[1..])
  {
    var n := |prs| - 1;
    if n > 0 {
      MarkedOfCons(prs[..n]);
      assert prs[..n][1..] == prs[1..][..n - 1];
    } else {
      assert prs[..0] == [] && prs[1..] == [];
    }
  }

  lemma MarkedOfAppend(prs: seq<Pr>, pr: Pr)
    ensures MarkedUrls(prs + [pr]) == MarkedUrls(prs) + (if pr.marked then [pr.url] else [])
  {
    assert (prs + [pr])[..|prs|] == prs;
  }

  ghost predicate Fits(w: World) { HubOk(w.core.d, w.hub, w.worker) }

  lemma ThrowFits(w: World, conflict: bool)
    requires w.worker.Busy? && HubOk(w.core.d, w.hub, Idle)
    ensures Fits(Throw(w, conflict)) && Throw(w, conflict).worker == Idle && Throw(w, conflict).hub == w.hub
  {
  }

  lemma CheckFits(w: World, next: Stage)
    requires w.worker.Busy? && Fits(w) && StageOk(next, MarkedUrls(w.hub.prs), TheCommit(w.core.d))
    ensures Fits(Compare(w, next)) && Fits(Assert(w, next)) && Fits(GoTo(w, next))
  {
    ThrowFits(w, true);
  }

  lemma ListFits(w: World, url: string)
    requires w.worker.Busy? && w.worker.stage.ListPrs? && Fits(w)
    ensures Fits(Proceed(w, url))
  {
    FindMarkedFinds(w.hub.prs);
    ThrowFits(w, true);
  }

  lemma CommitFits(w: World, url: string)
    requires w.worker.Busy? && w.worker.stage.CommitPatch? && Fits(w)
    ensures Fits(Proceed(w, url))
  {
    ThrowFits(w, true);
  }

  lemma PushFits(w: World, url: string)
    requires w.worker.Busy? && (w.worker.stage.LookUpBranch? || w.worker.stage.PushBranch?) && Fits(w)
    ensures Fits(Proceed(w, url))
  {
    ThrowFits(w, true);
    ThrowFits(w, false);
  }

  lemma PostFits(w: World, url: string)
    requires w.worker.Busy? && w.worker.stage.PostPr? && Fits(w)
    ensures Fits(Proceed(w, url))
  {
    MarkedOfAppend(w.hub.prs, Pr(url, true));
    assert MarkedUrls(Proceed(w, url).hub.prs) == [url];
  }

  lemma RecordFits(w: World, url: string)
    requires w.worker.Busy? && w.worker.stage.Record? && Fits(w)
    ensures Fits(Proceed(w, url))
  {
  }

  lemma ProceedFits(w: World, url: string)
    requires w.worker.Busy? && Fits(w)
    ensures Fits(Proceed(w, url))
  {
    match w.worker.stage
    case ListPrs => ListFits(w, url);
    case CompareFirst => CheckFits(w, CommitPatch);
    case CommitPatch => CommitFits(w, url);
    case LookUpBranch(_) => PushFits(w, url);
    case ComparePush(commit, push) => CheckFits(w, LeasePush(commit, push));
    case LeasePush(commit, push) => CheckFits(w, PushBranch(commit, push));
    case PushBranch(_, _) => PushFits(w, url);
    case ComparePost => CheckFits(w, LeasePost);
    case LeasePost => CheckFits(w, PostPr);
    case PostPr => PostFits(w, url);
    case Record(_) => RecordFits(w, url);
  }

  lemma WorkFits(w: World, luck: Luck, url: string)
    requires Fits(w)
    ensures Fits(After(w, Work(luck, url)))
  {
    if w.worker.Busy? {
      ProceedFits(w, url);
      match luck
      case Fine =>
      case Error(done) => ThrowFits(if done then Orphaned(w, url) else w, false);
      case Death(_) =>
    }
  }

  lemma CoreFits(w: World, op: Op)
    requires Fits(w) && JointOk(w.core.d)
    ensures Fits(After(w, Core(op)))
  {
    if op.Deliver? {
      DeliveryStepKeepsCoupling(w.core.d, w.core.now, op.op);
    } else {
      JobIsDeliverys(w.core.d, w.core.now, w.core.ttl, op);
    }
  }

  lemma TickFits(w: World, token: nat)
    requires Fits(w)
    ensures Fits(After(w, Tick(token)))
  {
  }

  lemma RenewFits(w: World)
    requires Fits(w)
    ensures Fits(After(w, RenewLease))
  {
  }

  lemma AfterFits(w: World, act: Act)
    requires Fits(w) && JointOk(w.core.d)
    ensures Fits(After(w, act))
  {
    match act
    case Core(op) => CoreFits(w, op);
    case Tick(token) => TickFits(w, token);
    case Work(luck, url) => WorkFits(w, luck, url);
    case RenewLease => RenewFits(w);
    case OpenPr(url) => MarkedOfAppend(w.hub.prs, Pr(url, false));
    case _ =>
  }

  // ---- The run's own invariant ----

  lemma DeliverKeepsInv(w: World, op: DeliveryOp)
    requires Inv(w.core)
    ensures Inv(Deliver(w, op).core)
  {
    StepKeepsInv(w.core, RunSystem.Op.Deliver(op));
  }

  lemma ThrowKeepsInv(w: World, conflict: bool)
    requires w.worker.Busy? && Inv(w.core)
    ensures Inv(Throw(w, conflict).core)
  {
    DeliverKeepsInv(w, RecordError(w.worker.token, conflict, if conflict then "conflict" else "delivery failed"));
  }

  lemma ProceedKeepsInv(w: World, url: string)
    requires w.worker.Busy? && Inv(w.core)
    ensures Inv(Proceed(w, url).core)
  {
    ThrowKeepsInv(w, true);
    ThrowKeepsInv(w, false);
    match w.worker.stage
    case CommitPatch =>
      if w.core.d.patches != [] {
        DeliverKeepsInv(w, PinCommit(CommitOf(w.core.d.patches[|w.core.d.patches| - 1].content)));
      }
    case Record(u) => DeliverKeepsInv(w, RecordPr(w.worker.token, u));
    case _ =>
  }

  lemma WorkKeepsInv(w: World, luck: Luck, url: string)
    requires Inv(w.core)
    ensures Inv(After(w, Work(luck, url)).core)
  {
    if w.worker.Busy? {
      ProceedKeepsInv(w, url);
      ThrowKeepsInv(w, false);
      ThrowKeepsInv(Orphaned(w, url), false);
    }
  }

  lemma AfterKeepsInv(w: World, act: Act)
    requires Inv(w.core)
    ensures Inv(After(w, act).core)
  {
    match act
    case Core(op) => StepKeepsInv(w.core, op);
    case Tick(token) =>
      DeliverKeepsInv(w, GiveUp);
      DeliverKeepsInv(Deliver(w, GiveUp), ClaimJob(token));
    case RenewLease => if w.worker.Busy? { DeliverKeepsInv(w, Renew(w.worker.token)); }
    case Work(luck, url) => WorkKeepsInv(w, luck, url);
    case _ =>
  }

  // ---- What is checked before anything leaves ----

  /** How many times the target and the lease have been checked before a stage. */
  function ChecksBefore(stage: Stage): (nat, nat) {
    match stage
    case ListPrs => (0, 0)
    case CompareFirst => (0, 0)
    case CommitPatch => (1, 0)
    case LookUpBranch(_) => (1, 0)
    case ComparePush(_, _) => (1, 0)
    case LeasePush(_, _) => (2, 0)
    case PushBranch(_, _) => (2, 1)
    case ComparePost => (2, 1)
    case LeasePost => (3, 1)
    case PostPr => (3, 2)
    case Record(_) => (0, 0)
  }

  /** Every check so far saw the expected target, or a live lease, and none was left out. */
  ghost predicate Checked(w: World) {
    w.worker.Busy? && !w.worker.stage.Record? ==>
      && |w.worker.targets| == ChecksBefore(w.worker.stage).0 && |w.worker.slack| == ChecksBefore(w.worker.stage).1
      && (forall t :: t in w.worker.targets ==> t == w.expected)
      && (forall ms :: ms in w.worker.slack ==> ms > 0)
  }

  lemma ProceedKeepsChecked(w: World, url: string)
    requires w.worker.Busy? && Checked(w)
    ensures Checked(Proceed(w, url)) && Proceed(w, url).expected == w.expected
  {
  }

  lemma AfterKeepsChecked(w: World, act: Act)
    requires Checked(w)
    ensures Checked(After(w, act)) && After(w, act).expected == w.expected
  {
    if act.Work? && w.worker.Busy? {
      ProceedKeepsChecked(w, act.url);
    }
  }

  // ---- Whole runs ----

  lemma ProceedGrows(w: World, url: string)
    requires w.worker.Busy?
    ensures w.hub.prs <= Proceed(w, url).hub.prs && w.hub.pushed <= Proceed(w, url).hub.pushed
  {
  }

  /** Pull requests and pushes are never taken back. */
  lemma HubOnlyGrows(w: World, act: Act)
    ensures w.hub.prs <= After(w, act).hub.prs
    ensures w.hub.pushed <= After(w, act).hub.pushed
  {
    if act.Work? && w.worker.Busy? {
      ProceedGrows(w, act.url);
    }
  }

  lemma {:induction false} MarkedOfPrefix(prs: seq<Pr>, more: seq<Pr>)
    requires prs <= more
    ensures MarkedUrls(prs) <= MarkedUrls(more)
    decreases |more|
  {
    if prs == more {
    } else {
      MarkedOfPrefix(prs, more[..|more| - 1]);
    }
  }

  lemma {:induction false} EveryActKeepsWorld(w: World, acts: seq<Act>)
    requires WorldOk(w)
    ensures WorldOk(AfterAll(w, acts))
    ensures w.hub.prs <= AfterAll(w, acts).hub.prs
    decreases |acts|
  {
    if acts != [] {
      AfterFits(w, acts[0]);
      AfterKeepsInv(w, acts[0]);
      HubOnlyGrows(w, acts[0]);
      EveryActKeepsWorld(After(w, acts[0]), acts[1..]);
    }
  }

  /** A run with nothing delivered yet; others may have pull requests and a branch already. */
  predicate Untouched(hub: Hub) { MarkedUrls(hub.prs) == [] && hub.pushed == [] }

  /** The job names the newest patch and has a bounded number of attempts. */
  lemma JobIsCoupled(d: Db)
    requires JointOk(d) && d.job.Some?
    ensures d.job.value.attempts <= MAX_DELIVERIES && d.patches != []
    ensures d.job.value.patchDigest.content == d.patches[|d.patches| - 1].content
  {
  }

  /**
   At most one pull request.  Whatever fails, dies or interferes, at most one pull request with the
   marker of the job is ever opened, every push is the one commit of the approved patch, a recorded
   address is that of the one pull request, and a job is attempted at most five times.
   */
  lemma AtMostOnePullRequest(cfg: Config, now: int, ttl: nat, hub: Hub, expected: Digest, acts: seq<Act>)
    requires ValidConfig(cfg) && Untouched(hub)
    ensures var w := AfterAll(World(Start(cfg, now, ttl), hub, Idle, expected), acts);
      && |MarkedUrls(w.hub.prs)| <= 1
      && (w.core.d.job.None? ==> MarkedUrls(w.hub.prs) == [] && w.hub.pushed == [])
      && (w.core.d.job.Some? ==>
            var job := w.core.d.job.value;
            && job.attempts <= MAX_DELIVERIES
            && (job.prUrl.Some? ==> MarkedUrls(w.hub.prs) == [job.prUrl.value])
            && (forall k :: 0 <= k < |w.hub.pushed| ==> w.hub.pushed[k] == CommitOf(job.patchDigest.content)))
  {
    var w0 := World(Start(cfg, now, ttl), hub, Idle, expected);
    CreationHolds(cfg, now, ttl);
    EveryActKeepsWorld(w0, acts);
    var d := AfterAll(w0, acts).core.d;
    if d.job.Some? {
      JobIsCoupled(d);
    }
  }

  // ---- From the success report to the push ----

  /** Everything in this world reaches the run through transactions of the run. */
  ghost predicate Runs(s: Sys, e: Sys) { exists ops: seq<Op> :: e == Exec(s, ops) }

  lemma RunsOn(s: Sys, m: Sys, op: Op)
    requires Runs(s, m)
    ensures Runs(s, Next(m, op))
  {
    var ops: seq<Op> :| m == Exec(s, ops);
    ExecAppend(s, ops, [op]);
    assert [op][1..] == [];
    assert Exec(m, [op]) == Next(m, op);
    assert Next(m, op) == Exec(s, ops + [op]);
  }

  lemma RunsNowhere(s: Sys)
    ensures Runs(s, s)
  {
    var none: seq<Op> := [];
    assert s == Exec(s, none);
  }

  lemma ThrowRuns(s: Sys, w: World, conflict: bool)
    requires w.worker.Busy? && Runs(s, w.core)
    ensures Runs(s, Throw(w, conflict).core)
  {
    RunsOn(s, w.core, RunSystem.Op.Deliver(RecordError(w.worker.token, conflict,
                                                       if conflict then "conflict" else "delivery failed")));
  }

  lemma ProceedRuns(s: Sys, w: World, url: string)
    requires w.worker.Busy? && Runs(s, w.core)
    ensures Runs(s, Proceed(w, url).core)
  {
    ThrowRuns(s, w, true);
    ThrowRuns(s, w, false);
    match w.worker.stage
    case CommitPatch =>
      if w.core.d.patches != [] {
        RunsOn(s, w.core, RunSystem.Op.Deliver(PinCommit(CommitOf(w.core.d.patches[|w.core.d.patches| - 1].content))));
      }
    case Record(u) => RunsOn(s, w.core, RunSystem.Op.Deliver(RecordPr(w.worker.token, u)));
    case _ =>
  }

  lemma WorkRuns(s: Sys, w: World, luck: Luck, url: string)
    requires Runs(s, w.core)
    ensures Runs(s, After(w, Work(luck, url)).core)
  {
    if w.worker.Busy? {
      ProceedRuns(s, w, url);
      ThrowRuns(s, w, false);
      ThrowRuns(s, Orphaned(w, url), false);
    }
  }

  lemma AfterRuns(s: Sys, w: World, act: Act)
    requires Runs(s, w.core)
    ensures Runs(s, After(w, act).core)
  {
    match act
    case Core(op) => RunsOn(s, w.core, op);
    case Tick(token) =>
      RunsOn(s, w.core, RunSystem.Op.Deliver(GiveUp));
      RunsOn(s, Deliver(w, GiveUp).core, RunSystem.Op.Deliver(ClaimJob(token)));
    case RenewLease => if w.worker.Busy? { RunsOn(s, w.core, RunSystem.Op.Deliver(Renew(w.worker.token))); }
    case Work(luck, url) => WorkRuns(s, w, luck, url);
    case _ =>
  }

  lemma {:induction false} AllRun(s: Sys, w: World, acts: seq<Act>)
    requires Runs(s, w.core)
    ensures Runs(s, AfterAll(w, acts).core)
    decreases |acts|
  {
    if acts != [] {
      AfterRuns(s, w, acts[0]);
      AllRun(s, After(w, acts[0]), acts[1..]);
    }
  }

  lemma PushedIsApproved(w: World, patch: string)
    requires WorldOk(w) && NewestDigest(w.core.d.patches) == Some(Sha256(patch))
    ensures forall k :: 0 <= k < |w.hub.pushed| ==> w.hub.pushed[k] == CommitOf(patch)
  {
    assert TheCommit(w.core.d) == Some(CommitOf(patch));
  }

  lemma PushedAfterSuccess(w: World, i: nat, outcome: Outcome, after: seq<Act>)
    requires WorldOk(w) && Reachable(w.core) && outcome.patch != "" && MaySucceed(w.core.d, w.core.now, i)
    ensures var e := AfterAll(After(w, Core(Succeed(i, outcome))), after);
      && (e.core.d.job.Some? ==> e.core.d.job.value.patchDigest == Sha256(outcome.patch))
      && (forall k :: 0 <= k < |e.hub.pushed| ==> e.hub.pushed[k] == CommitOf(outcome.patch))
  {
    var m := After(w, Core(Succeed(i, outcome)));
    AfterFits(w, Core(Succeed(i, outcome)));
    AfterKeepsInv(w, Core(Succeed(i, outcome)));
    EveryActKeepsWorld(m, after);
    RunsNowhere(m.core);
    AllRun(m.core, m, after);
    var ops: seq<Op> :| AfterAll(m, after).core == Exec(m.core, ops);
    ApprovedBytesAreDelivered(w.core, i, outcome, ops);
    PushedIsApproved(AfterAll(m, after), outcome.patch);
  }

  /**
   The bytes that were verified are the bytes that are pushed: after a report of success with a patch,
   whatever anybody does, every push there ever is is the commit of that patch.
   */
  lemma VerifiedBytesArePushed(cfg: Config, now: int, ttl: nat, hub: Hub, expected: Digest,
                               before: seq<Act>, i: nat, outcome: Outcome, after: seq<Act>)
    requires ValidConfig(cfg) && Untouched(hub) && outcome.patch != ""
    requires var w := AfterAll(World(Start(cfg, now, ttl), hub, Idle, expected), before);
      MaySucceed(w.core.d, w.core.now, i)
    ensures var w := AfterAll(World(Start(cfg, now, ttl), hub, Idle, expected), before);
      var e := AfterAll(After(w, Core(Succeed(i, outcome))), after);
      && (e.core.d.job.Some? ==> e.core.d.job.value.patchDigest == Sha256(outcome.patch))
      && (forall k :: 0 <= k < |e.hub.pushed| ==> e.hub.pushed[k] == CommitOf(outcome.patch))
  {
    var w0 := World(Start(cfg, now, ttl), hub, Idle, expected);
    CreationHolds(cfg, now, ttl);
    EveryActKeepsWorld(w0, before);
    RunsNowhere(w0.core);
    AllRun(w0.core, w0, before);
    PushedAfterSuccess(AfterAll(w0, before), i, outcome, after);
  }

  // ---- Retries ----

  /** Once the pull request exists it stays the only one, and any later delivery ends with its address. */
  lemma SamePullRequestForEver(w: World, acts: seq<Act>, url: string)
    requires WorldOk(w) && MarkedUrls(w.hub.prs) == [url]
    ensures var e := AfterAll(w, acts);
      && MarkedUrls(e.hub.prs) == [url]
      && (e.core.d.job.Some? && e.core.d.job.value.prUrl.Some? ==> e.core.d.job.value.prUrl == Some(url))
      && (e.worker.Busy? && e.worker.stage.Record? ==> e.worker.stage.url == url)
  {
    EveryActKeepsWorld(w, acts);
    MarkedOfPrefix(w.hub.prs, AfterAll(w, acts).hub.prs);
  }

  lemma TickLists(w: World, token: nat)
    requires w.worker.Idle? && w.core.d.job.Some? && Claimable(w.core.d.job.value, w.core.now)
    ensures var e := After(w, Tick(token)); e.worker.Busy? && e.worker.stage.ListPrs? && e.hub == w.hub
  {
  }

  lemma ListFinds(w: World, url: string, other: string)
    requires w.worker.Busy? && w.worker.stage.ListPrs? && MarkedUrls(w.hub.prs) == [url]
    ensures Proceed(w, other) == GoTo(w, Record(url))
  {
    FindMarkedFinds(w.hub.prs);
  }

  lemma RecordSucceeds(w: World, other: string)
    requires Fits(w) && JointOk(w.core.d) && w.worker.Busy? && w.worker.stage.Record?
    ensures var e := Proceed(w, other);
      && e.hub == w.hub && e.worker.Idle? && e.core.d.task.status.PrCreated?
      && e.core.d.job.Some? && e.core.d.job.value.status.Succeeded?
      && e.core.d.job.value.prUrl == Some(w.worker.stage.url)
      && e.core.d.job.value.commitSha == w.core.d.job.value.commitSha
  {
  }

  lemma ThreeActs(w: World, a: Act, b: Act, c: Act)
    ensures AfterAll(w, [a, b, c]) == After(After(After(w, a), b), c)
  {
    assert [a, b, c][1..] == [b, c] && [b, c][1..] == [c] && [c][1..] == [];
    var e := After(After(w, a), b);
    assert AfterAll(After(e, c), []) == After(e, c);
    assert AfterAll(e, [c]) == After(e, c);
    assert AfterAll(After(w, a), [b, c]) == AfterAll(e, [c]);
  }

  /** The delivery is over, its address is recorded, and outside nothing has changed. */
  predicate Recorded(w: World, url: string, hub: Hub) {
    && w.hub == hub && w.worker.Idle? && w.core.d.task.status.PrCreated?
    && w.core.d.job.Some? && w.core.d.job.value.status.Succeeded? && w.core.d.job.value.prUrl == Some(url)
  }

  lemma UndisturbedRecords(w: World, token: nat, url: string, other: string)
    requires w.worker.Idle? && w.core.d.job.Some? && Claimable(w.core.d.job.value, w.core.now)
    ensures WorldOk(w) && MarkedUrls(w.hub.prs) == [url] ==>
      Recorded(After(After(After(w, Tick(token)), Work(Fine, other)), Work(Fine, other)), url, w.hub)
  {
    if WorldOk(w) && MarkedUrls(w.hub.prs) == [url] {
      var t := After(w, Tick(token));
      TickLists(w, token);
      AfterFits(w, Tick(token));
      AfterKeepsInv(w, Tick(token));
      ListFinds(t, url, other);
      ListFits(t, other);
      RecordSucceeds(GoTo(t, Record(url)), other);
    }
  }

  /**
   Whatever happened since the pull request was opened, the next delivery that nothing disturbs finds
   it, changes nothing outside and records its address.
   */
  lemma RetryReturnsSamePr(w: World, between: seq<Act>, token: nat, url: string, other: string)
    requires WorldOk(w) && MarkedUrls(w.hub.prs) == [url]
    requires var m := AfterAll(w, between);
      m.worker.Idle? && m.core.d.job.Some? && Claimable(m.core.d.job.value, m.core.now)
    ensures var m := AfterAll(w, between);
      Recorded(AfterAll(m, [Tick(token), Work(Fine, other), Work(Fine, other)]), url, m.hub)
  {
    var m := AfterAll(w, between);
    SamePullRequestForEver(w, between, url);
    EveryActKeepsWorld(w, between);
    UndisturbedRecords(m, token, url, other);
    ThreeActs(m, Tick(token), Work(Fine, other), Work(Fine, other));
  }

  // ---- A delivery that nothing disturbs ----

  /** `n` steps of the worker, one after another. */
  function Undisturbed(w: World, url: string, n: nat): World
    decreases n
  {
    if n == 0 then w else Undisturbed(After(w, Work(Fine, url)), url, n - 1)
  }

  lemma {:induction false} IdleStays(w: World, url: string, n: nat)
    requires w.worker.Idle?
    ensures Undisturbed(w, url, n) == w
    decreases n
  {
    if n > 0 {
      IdleStays(w, url, n - 1);
    }
  }

  /** The branch stands at the commit; it was pushed there unless it stood there before. */
  function Pushed(hub: Hub, commit: Digest): Hub {
    hub.(branch := Some(commit), pushed := hub.pushed + (if hub.branch.None? then [commit] else []))
  }

  function StageNo(stage: Stage): nat {
    match stage
    case ListPrs => 0
    case CompareFirst => 1
    case CommitPatch => 2
    case LookUpBranch(_) => 3
    case ComparePush(_, _) => 4
    case LeasePush(_, _) => 5
    case PushBranch(_, _) => 6
    case ComparePost => 7
    case LeasePost => 8
    case PostPr => 9
    case Record(_) => 10
  }

  /** Nothing stands in the way of the delivery that found `hub` when it began. */
  predicate Unobstructed(hub: Hub, expected: Digest, commit: Digest) {
    && hub.prs == [] && hub.target == expected && (hub.branch.None? || hub.branch == Some(commit))
  }

  /** The delivery has come as far as its stage says. */
  ghost predicate OnCourse(w: World, url: string, hub: Hub, commit: Digest) {
    && w.worker.Busy? && Leased(w, w.worker.token) && TheCommit(w.core.d) == Some(commit)
    && Unobstructed(hub, w.expected, commit)
    && (StageNo(w.worker.stage) >= 3 ==> w.core.d.job.value.commitSha == Some(commit))
    && (match w.worker.stage
        case ListPrs => w.hub == hub
        case CompareFirst => w.hub == hub
        case CommitPatch => w.hub == hub
        case LookUpBranch(c) => w.hub == hub && c == commit
        case ComparePush(c, push) => w.hub == hub && c == commit && (push <==> hub.branch.None?)
        case LeasePush(c, push) => w.hub == hub && c == commit && (push <==> hub.branch.None?)
        case PushBranch(c, push) => w.hub == hub && c == commit && (push <==> hub.branch.None?)
        case ComparePost => w.hub == Pushed(hub, commit)
        case LeasePost => w.hub == Pushed(hub, commit)
        case PostPr => w.hub == Pushed(hub, commit)
        case Record(u) => u == url && w.hub == Pushed(hub, commit).(prs := [Pr(url, true)]))
  }

  /** The newest patch is the approved one, and the commit is not pinned to another. */
  ghost predicate CommitExpected(w: World, commit: Digest)
    requires w.worker.Busy?
  {
    && w.core.d.patches != [] && CommitOf(w.core.d.patches[|w.core.d.patches| - 1].content) == commit
    && w.core.d.job.Some? && NewestDigest(w.core.d.patches) == Some(w.core.d.job.value.patchDigest)
    && (w.worker.pinned.None? || w.worker.pinned == Some(commit))
  }

  lemma CommitIsExpected(w: World, commit: Digest)
    requires w.worker.Busy?
    ensures WorldOk(w) && TheCommit(w.core.d) == Some(commit) ==> CommitExpected(w, commit)
  {
    if WorldOk(w) {
      JobIsCoupled(w.core.d);
    }
  }

  lemma CommitGoesOn(w: World, url: string, commit: Digest)
    requires w.worker.Busy? && w.worker.stage.CommitPatch?
    ensures CommitExpected(w, commit) && Leased(w, w.worker.token) ==>
      var l := Proceed(w, url);
      && l.worker == w.worker.(stage := LookUpBranch(commit)) && l.hub == w.hub && l.expected == w.expected
      && Leased(l, l.worker.token) && l.core.d.patches == w.core.d.patches
      && l.core.d.job.value.commitSha == Some(commit)
  {
  }

  lemma CommitOnCourse(w: World, url: string, hub: Hub, commit: Digest)
    requires w.worker.Busy? && w.worker.stage.CommitPatch?
    ensures WorldOk(w) && OnCourse(w, url, hub, commit) ==>
      OnCourse(Proceed(w, url), url, hub, commit) && Proceed(w, url).worker.stage.LookUpBranch?
  {
    CommitIsExpected(w, commit);
    CommitGoesOn(w, url, commit);
  }

  lemma ReachingOnCourse(w: World, url: string, hub: Hub, commit: Digest)
    requires w.worker.Busy? && 6 <= StageNo(w.worker.stage) <= 9
    ensures OnCourse(w, url, hub, commit) ==>
      && OnCourse(Proceed(w, url), url, hub, commit)
      && StageNo(Proceed(w, url).worker.stage) == StageNo(w.worker.stage) + 1
  {
  }

  lemma StepOnCourse(w: World, url: string, hub: Hub, commit: Digest)
    requires w.worker.Busy? && !w.worker.stage.Record?
    ensures WorldOk(w) && OnCourse(w, url, hub, commit) ==>
      && OnCourse(Proceed(w, url), url, hub, commit)
      && StageNo(Proceed(w, url).worker.stage) == StageNo(w.worker.stage) + 1
  {
    if w.worker.stage.CommitPatch? {
      CommitOnCourse(w, url, hub, commit);
    } else if StageNo(w.worker.stage) >= 6 {
      ReachingOnCourse(w, url, hub, commit);
    }
  }

  /** The pull request is open and recorded, and the commit is kept with the job. */
  ghost predicate Landed(w: World, url: string, hub: Hub, commit: Digest) {
    && Recorded(w, url, Pushed(hub, commit).(prs := [Pr(url, true)]))
    && w.core.d.job.value.commitSha == Some(commit)
  }

  /** `n` steps from its end, nothing has gone wrong yet. */
  ghost predicate Going(w: World, url: string, hub: Hub, commit: Digest, n: nat) {
    WorldOk(w) && OnCourse(w, url, hub, commit) && StageNo(w.worker.stage) + n == 11
  }

  lemma LastStep(w: World, url: string, hub: Hub, commit: Digest)
    requires w.worker.Busy?
    ensures Going(w, url, hub, commit, 1) ==> Landed(Proceed(w, url), url, hub, commit)
  {
    if Going(w, url, hub, commit, 1) {
      RecordSucceeds(w, url);
    }
  }

  lemma OneStepOn(w: World, url: string, hub: Hub, commit: Digest, n: nat)
    requires w.worker.Busy? && n >= 2
    ensures Going(w, url, hub, commit, n) ==> Going(Proceed(w, url), url, hub, commit, n - 1)
  {
    if Going(w, url, hub, commit, n) {
      ProceedFits(w, url);
      ProceedKeepsInv(w, url);
      StepOnCourse(w, url, hub, commit);
    }
  }

  lemma FirstStep(w: World, url: string, n: nat)
    requires w.worker.Busy? && n > 0
    ensures Undisturbed(w, url, n) == Undisturbed(Proceed(w, url), url, n - 1)
  {
  }

  lemma GoingIsBusy(w: World, url: string, hub: Hub, commit: Digest, n: nat)
    ensures Going(w, url, hub, commit, n) ==> w.worker.Busy? && n >= 1
  {
  }

  lemma {:induction false} CourseArrives(w: World, url: string, hub: Hub, commit: Digest, n: nat)
    requires n >= 1
    ensures Going(w, url, hub, commit, n) ==> Landed(Undisturbed(w, url, n), url, hub, commit)
    decreases n
  {
    GoingIsBusy(w, url, hub, commit, n);
    if w.worker.Busy? {
      FirstStep(w, url, n);
      if n == 1 {
        LastStep(w, url, hub, commit);
      } else {
        OneStepOn(w, url, hub, commit, n);
        CourseArrives(Proceed(w, url), url, hub, commit, n - 1);
      }
    }
  }

  /** The delivery ends in a conflict and has changed nothing outside. */
  predicate Conflicted(w: World, hub: Hub) {
    && w.hub == hub && w.worker.Idle? && w.core.d.task.status.PrFailed?
    && w.core.d.job.Some? && w.core.d.job.value.status.NeedsAttention?
  }

  lemma ThrowConflicts(w: World)
    requires w.worker.Busy?
    ensures w.core.d.job.Some? && Owns(w.core.d.job.value, w.worker.token) ==> Conflicted(Throw(w, true), w.hub)
  {
  }

  /** A delivery that died in its fifth attempt is given up by a later tick, which starts nothing. */
  lemma TickGivesUp(w: World, token: nat)
    requires w.worker.Idle? && w.core.d.job.Some? && w.core.d.job.value.status.Running?
    requires w.core.d.job.value.attempts == 5 && w.core.d.job.value.leaseExpiresAt < w.core.now
    ensures var e := After(w, Tick(token));
      && e.worker.Idle? && e.hub == w.hub && e.core.d.task.status.PrFailed?
      && e.core.d.job == Some(w.core.d.job.value.(status := JobStatus.Failed))
  {
  }

  /** What a tick makes of an idle worker with a job to do. */
  ghost predicate Begun(w: World, t: World) {
    && t.hub == w.hub && t.expected == w.expected && TheCommit(t.core.d) == TheCommit(w.core.d)
    && t.worker.Busy? && t.worker.stage.ListPrs? && Leased(t, t.worker.token)
  }

  lemma TickBegins(w: World, token: nat)
    requires w.worker.Idle? && w.core.d.job.Some? && Claimable(w.core.d.job.value, w.core.now)
    ensures Begun(w, After(w, Tick(token)))
  {
  }

  lemma OthersConflict(w: World, url: string)
    requires w.worker.Busy? && w.worker.stage.ListPrs? && w.hub.prs != [] && MarkedUrls(w.hub.prs) == []
    ensures Leased(w, w.worker.token) ==> Conflicted(Undisturbed(w, url, 11), w.hub)
  {
    FindMarkedFinds(w.hub.prs);
    ThrowConflicts(w);
    IdleStays(Throw(w, true), url, 10);
  }

  lemma TargetConflicts(w: World, url: string)
    requires w.worker.Busy? && w.worker.stage.ListPrs? && w.hub.prs == [] && w.hub.target != w.expected
    ensures Leased(w, w.worker.token) ==> Conflicted(Undisturbed(w, url, 11), w.hub)
  {
    var c := GoTo(w, CompareFirst);
    assert After(w, Work(Fine, url)) == c;
    ThrowConflicts(c);
    IdleStays(Throw(c, true), url, 9);
  }

  lemma BranchConflicts(w: World, url: string, commit: Digest)
    requires WorldOk(w) && w.worker.Busy? && w.worker.stage.CommitPatch? && TheCommit(w.core.d) == Some(commit)
    requires w.hub.branch.Some? && w.hub.branch != Some(commit) && Leased(w, w.worker.token)
    ensures Conflicted(Undisturbed(w, url, 9), w.hub)
  {
    CommitLooksUp(w, url, commit);
    LookUpConflicts(Proceed(w, url), url, commit);
  }

  lemma CommitLooksUp(w: World, url: string, commit: Digest)
    requires w.worker.Busy? && w.worker.stage.CommitPatch?
    ensures WorldOk(w) && TheCommit(w.core.d) == Some(commit) && Leased(w, w.worker.token) ==>
      var l := Proceed(w, url);
      l.worker.Busy? && l.worker.stage == LookUpBranch(commit) && l.hub == w.hub && Leased(l, l.worker.token)
  {
    CommitIsExpected(w, commit);
    CommitGoesOn(w, url, commit);
  }

  lemma LookUpConflicts(w: World, url: string, commit: Digest)
    requires w.worker.Busy? && w.worker.stage == LookUpBranch(commit) && Leased(w, w.worker.token)
    requires w.hub.branch.Some? && w.hub.branch != Some(commit)
    ensures Conflicted(Undisturbed(w, url, 8), w.hub)
  {
    ThrowConflicts(w);
    IdleStays(Throw(w, true), url, 7);
    assert Undisturbed(w, url, 8) == Undisturbed(Throw(w, true), url, 7);
  }

  lemma TwoSteps(w: World, url: string, n: nat)
    requires w.worker.Busy? && w.worker.stage.ListPrs? && w.hub.prs == [] && w.hub.target == w.expected
    ensures var c := Proceed(GoTo(w, CompareFirst), url);
      && c == w.(worker := w.worker.(stage := CommitPatch, targets := w.worker.targets + [w.hub.target]))
      && Undisturbed(w, url, n + 2) == Undisturbed(c, url, n)
  {
    var c := GoTo(w, CompareFirst);
    assert After(w, Work(Fine, url)) == c;
    assert Undisturbed(w, url, n + 2) == Undisturbed(c, url, n + 1);
  }

  lemma CheckedWorld(w: World, targets: seq<Digest>)
    requires WorldOk(w) && w.worker.Busy? && w.worker.stage.ListPrs? && MarkedUrls(w.hub.prs) == []
    ensures WorldOk(w.(worker := w.worker.(stage := CommitPatch, targets := targets)))
  {
  }

  lemma BranchEnds(w: World, url: string, commit: Digest)
    requires WorldOk(w) && w.worker.Busy? && w.worker.stage.ListPrs? && Leased(w, w.worker.token)
    requires w.hub.prs == [] && w.hub.target == w.expected && TheCommit(w.core.d) == Some(commit)
    requires w.hub.branch.Some? && w.hub.branch != Some(commit)
    ensures Conflicted(Undisturbed(w, url, 11), w.hub)
  {
    var targets := w.worker.targets + [w.hub.target];
    TwoSteps(w, url, 9);
    CheckedWorld(w, targets);
    BranchConflicts(w.(worker := w.worker.(stage := CommitPatch, targets := targets)), url, commit);
  }

  /** From the first stage on, by what stands on the hosting service. */
  lemma ListedEnds(w: World, url: string, commit: Digest)
    requires WorldOk(w) && w.worker.Busy? && w.worker.stage.ListPrs? && Leased(w, w.worker.token)
    requires MarkedUrls(w.hub.prs) == [] && TheCommit(w.core.d) == Some(commit)
    ensures var e := Undisturbed(w, url, 11);
      if Unobstructed(w.hub, w.expected, commit)
      then Landed(e, url, w.hub, commit)
      else Conflicted(e, w.hub)
  {
    if Unobstructed(w.hub, w.expected, commit) {
      CourseFromStart(w, url, commit);
    } else {
      ObstructedEnds(w, url, commit);
    }
  }

  lemma CourseFromStart(w: World, url: string, commit: Digest)
    requires WorldOk(w) && w.worker.Busy? && w.worker.stage.ListPrs? && OnCourse(w, url, w.hub, commit)
    ensures Landed(Undisturbed(w, url, 11), url, w.hub, commit)
  {
    CourseArrives(w, url, w.hub, commit, 11);
  }

  lemma ObstructedEnds(w: World, url: string, commit: Digest)
    requires WorldOk(w) && w.worker.Busy? && w.worker.stage.ListPrs? && Leased(w, w.worker.token)
    requires MarkedUrls(w.hub.prs) == [] && TheCommit(w.core.d) == Some(commit)
    requires !Unobstructed(w.hub, w.expected, commit)
    ensures Conflicted(Undisturbed(w, url, 11), w.hub)
  {
    if w.hub.prs != [] {
      OthersConflict(w, url);
    } else if w.hub.target != w.expected {
      TargetConflicts(w, url);
    } else {
      BranchEnds(w, url, commit);
    }
  }

  lemma FoundEnds(w: World, url: string, found: string)
    requires WorldOk(w) && w.worker.Busy? && w.worker.stage.ListPrs? && MarkedUrls(w.hub.prs) == [found]
    ensures Recorded(Undisturbed(w, url, 11), found, w.hub)
  {
    ListFinds(w, found, url);
    ListFits(w, url);
    var r := GoTo(w, Record(found));
    RecordSucceeds(r, url);
    IdleStays(Proceed(r, url), url, 9);
    assert Undisturbed(w, url, 11) == Undisturbed(r, url, 10) == Undisturbed(Proceed(r, url), url, 9);
  }

  /**
   How a delivery ends that nothing disturbs, for every state of the hosting service: it records the pull
   request with the job's marker if there is one; it ends in a conflict, changing nothing, if there
   is another one, or the target has moved, or the branch stands elsewhere; and otherwise the branch
   is at the commit, which is kept with the job and pushed once unless it stood there, and its one pull
   request is opened and recorded.
   */
  lemma UndisturbedDelivery(w: World, token: nat, url: string)
    requires WorldOk(w) && w.worker.Idle? && w.core.d.job.Some? && Claimable(w.core.d.job.value, w.core.now)
    ensures TheCommit(w.core.d).Some?
    ensures var e, commit := Undisturbed(After(w, Tick(token)), url, 11), TheCommit(w.core.d).value;
      if MarkedUrls(w.hub.prs) != [] then Recorded(e, MarkedUrls(w.hub.prs)[0], w.hub)
      else if w.hub.prs != [] || w.hub.target != w.expected || (w.hub.branch.Some? && w.hub.branch != Some(commit))
      then Conflicted(e, w.hub)
      else
        && Recorded(e, url, w.hub.(prs := [Pr(url, true)], branch := Some(commit),
                                   pushed := w.hub.pushed + (if w.hub.branch.None? then [commit] else [])))
        && e.core.d.job.value.commitSha == Some(commit)
  {
    var t := After(w, Tick(token));
    TickBegins(w, token);
    AfterFits(w, Tick(token));
    AfterKeepsInv(w, Tick(token));
    if MarkedUrls(w.hub.prs) != [] {
      FoundEnds(t, url, MarkedUrls(w.hub.prs)[0]);
    } else {
      ListedEnds(t, url, TheCommit(w.core.d).value);
    }
  }

  lemma {:induction false} EveryActKeepsChecked(w: World, acts: seq<Act>)
    requires Checked(w)
    ensures Checked(AfterAll(w, acts)) && AfterAll(w, acts).expected == w.expected
    decreases |acts|
  {
    if acts != [] {
      AfterKeepsChecked(w, acts[0]);
      EveryActKeepsChecked(After(w, acts[0]), acts[1..]);
    }
  }

  /**
   Nothing leaves unchecked.  When an act pushes, the delivery has twice seen the target where the
   snapshot expects it and once a live lease of its own; when it opens the pull request, once more each.
   */
  lemma NothingLeavesUnchecked(cfg: Config, now: int, ttl: nat, hub: Hub, expected: Digest, acts: seq<Act>, act: Act)
    ensures var w := AfterAll(World(Start(cfg, now, ttl), hub, Idle, expected), acts);
      var e := After(w, act);
      var pushes, posts := e.hub.pushed != w.hub.pushed, e.hub.prs != w.hub.prs && !act.OpenPr?;
      pushes || posts ==>
        && w.worker.Busy?
        && (if posts then w.worker.stage.PostPr? else w.worker.stage.PushBranch?)
        && |w.worker.targets| == (if posts then 3 else 2) && |w.worker.slack| == (if posts then 2 else 1)
        && (forall t :: t in w.worker.targets ==> t == expected)
        && (forall ms :: ms in w.worker.slack ==> ms > 0)
  {
    var w0 := World(Start(cfg, now, ttl), hub, Idle, expected);
    EveryActKeepsChecked(w0, acts);
    OnlyTwoStagesReachOut(AfterAll(w0, acts), act);
  }

  lemma OnlyTwoStagesReachOut(w: World, act: Act)
    ensures After(w, act).hub.pushed != w.hub.pushed ==> w.worker.Busy? && w.worker.stage.PushBranch?
    ensures After(w, act).hub.prs != w.hub.prs && !act.OpenPr? ==> w.worker.Busy? && w.worker.stage.PostPr?
  {
  }

  /** The branch is only ever created, never moved, by a delivery. */
  lemma PushOnlyCreates(w: World, act: Act)
    requires WorldOk(w) && !act.MoveBranch?
    ensures After(w, act).hub.branch == w.hub.branch
         || (w.hub.branch.None? && After(w, act).hub.branch == TheCommit(w.core.d))
  {
    if act.Work? && w.worker.Busy? {
      ProceedCreates(w, act.url);
    }
  }

  lemma ProceedCreates(w: World, url: string)
    requires w.worker.Busy? && Fits(w)
    ensures Proceed(w, url).hub.branch == w.hub.branch
         || (w.hub.branch.None? && Proceed(w, url).hub.branch == TheCommit(w.core.d))
  {
  }
}
