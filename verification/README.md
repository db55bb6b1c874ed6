# Run recovery, proved

A coding-agent platform runs repair attempts on workers that may die at any time. Its control plane
keeps one row per run, task, attempt, model call, command, checkpoint, artifact, event, approval and
delivery job, and recovers a run by lease, policy and redispatch. This project models that protocol,
the workers and pages around it, and proves what it keeps.

How to read it, from the bottom up:

- `Rows`, `StateMachine`, `PolicyEngine`, `EventLog`: the rows, the transition and decision tables, the
  numbered log.
- `RunProtocol`, `DeliveryRows`: every transaction as a function from the rows at lock time to the rows
  at commit. `RunServices` holds the services as they run, statement by statement with rollback, each
  method proved to commit exactly what the protocol says.
- `RunSystem`: one run as a transition system. Any transaction may come next, from anyone, with any
  arguments; time passes between them; an observer outside the rows records when the run was RUNNING.
- `RunInvariant` with `JointProof`, `LogProof`, `LedgerProof`, `TimeProof`: what every transaction keeps.
  `RunTheorems`, `RunMoves`, `Fencing`, `TablePaths`, `TableEdges`, `DeliveryTheorems`: what
  follows for whole runs. `Steps` and `Recovery` say what each transaction comes to in a reachable state, and exactly
  when, in terms of the rows alone; in particular what becomes of a run whose attempt fails.
- `StaleReads`: the reads that claim, completion and lease expiry make before they take the lock.
- `BudgetedModel`, `TokenSafety`: a model call from reservation to settlement, and token safety of ledger,
  workers and provider together.
- `Dispatch`, `OutboxPublisher`, `CommandWorker`: commands published and delivered at least once, executed at
  most once.
- `Ingestor`, `EventView`: events stored once, and the page that follows them.
- `ToolBatch`, `Toolset`, `FileWorkspaces`: a batch of tool calls, its checkpoints, and replay after a crash.
- `PrDelivery`: the pull request of an approved patch, with a worker that may die after any step.
- `GateCourse`, `Verifier`, `ChangedFiles`: gates in a row, the six of the verifier, and the list of changed files
  they look at.
- `Canonical`, `CanonicalExact`, `SnapshotDigest`: the text of any JSON value, and the digest that identifies a task
  snapshot.

Six statements one would like to make are not true of the code. Each is replaced by a concrete input
that breaks it and by the exact condition under which it holds:

- A tool batch replayed after a crash can differ from the uninterrupted run: a patch that failed is not
  recorded as completed, so it is tried again, and it may apply by then
  (`FileWorkspaces.FailedPatchComesBack`, `ToolBatch.CrashRecovery`).
- A page can lose events for good: its own list replaces the cache and may be older than what the stream has
  delivered (`EventView.ListCanBeOvertaken`, `EventView.LateListLosesEvents`, `EventView.CompleteWhileFresh`).
- A stale completion report of a fixture run can lower its token count
  (`StaleReads.FixtureReportOverwritesCheckpoint`, `StaleReads.StaleFailureIsAtomic`).
- A fixture command can be acknowledged without ever being claimed, if a claim of it was lost on its way or is
  still going there (`Dispatch.FixtureCommandCanBeSwallowed`, `Dispatch.FixtureCommandSwallowed`,
  `Dispatch.AcknowledgedIsSettled`); the run starts when the memory of the command has run out
  (`Dispatch.DispatchedCanStart`).
- A committed status change need not be an edge of the tables: a resume and the approval of a patch-only task skip
  statuses (`TableEdges.ResumeIsNoEdge`, `TableEdges.ApprovalIsNoEdge`), and a report or an expiry commits several
  edges at once. `TableEdges.SingleEdges` says exactly which transactions do; every change is a path
  (`TablePaths.EveryStepFollowsTheTables`).
- A pass of the verifier need not speak of every changed file: Git's exit code is not looked at, names like
  `test_é` come in quotes, and of a renamed file only the new name is seen (`ChangedFiles.QuotedTestPasses`,
  `ChangedFiles.PassIsCleanExactly`).

The digest is exact for what the code digests: snapshots of a strict schema, whose keys are fixed
(`SnapshotDigest.SnapshotDigestIsExact`). For arbitrary JSON `canonical` is exact for a value if and only if no
object inside it has distinct keys that the collation ties (`CanonicalExact.ExactWithoutTies`,
`CanonicalExact.EquivalentKeysShow`), and exact for all values if and only if it ties none
(`CanonicalExact.AlwaysExact`). Comparing code units meets every condition put on the collation here
(`CanonicalExact.CodeUnitsAreExact`, `SnapshotDigest.CodeUnitsTellApart`).

Assumptions: a transaction that holds the run's row lock is one step and commits or rolls back as a whole; all
clocks of the control plane agree and never go back, and one transaction reads one instant; SHA-256 is injective;
the language collation is a total preorder and tells different texts of ASCII letters apart; lease tokens are
fresh; Git's difference, applied to the base it was taken against, restores the workspace; a patch that was just
applied can be taken back (`ToolBatch.PatchTwiceIsOnce`); tools other than `apply_patch`, `run_command` among them,
change no files; Git quotes names and pairs renamed files, as it does unless told otherwise, and prints nothing if
it fails to list the changes; the hosting service lists a pull request as soon as it is open and never forgets it,
and nobody else writes the job's marker. Times are milliseconds, numbers unbounded integers (all counters stay far
below 2^53).

`dafny verify dfyconfig.toml` checks everything.

## Model

| member | source | states |
|---|---|---|
| `RunTheorems.EveryRunKeepsInv` | apps/control-plane/src/modules/run/run-lifecycle.service.ts:215-605 | in every state that any interleaving of transactions can reach, the joint invariant holds: at most the newest attempt runs and it does exactly when the run does; run, task, approval and job fit; log gapless and truthful; outbox numbered; ledger in budget; redispatch gate shut; time conserved; lease bounded |
| `RunTheorems.RowsFitTogether` | apps/control-plane/src/modules/run/run-lifecycle.service.ts:215-605 | after every commit a running run has exactly one running attempt, the newest, and a running task; DISPATCHED, INTERRUPTED, FAILED and CANCELLED have the task to match; an approval exists iff the run succeeded; attempts are numbered 1..n |
| `JointProof.StepKeepsJoint` | apps/control-plane/src/modules/run/run-lifecycle.service.ts:215-605 | every transaction of every writer keeps run, attempts, task, approval and delivery job together |
| `JointProof.PolicyHasShape` | apps/control-plane/src/modules/run/run-lifecycle.service.ts:502-605 | however the policy ends, it leaves the run waiting for a person, failed, or dispatched with exactly one more command for the next attempt below the limit, and touches no other rows |
| `JointProof.SucceedCommits` | apps/control-plane/src/modules/run/run-lifecycle.service.ts:355-383 | a success report commits exactly if its attempt still runs under a live lease with nothing unsettled, and otherwise changes nothing |
| `LogProof.FailCommits` | apps/control-plane/src/modules/run/run-lifecycle.service.ts:385-399 | a failure report of an executing attempt never throws, whatever the run row read before the lock, as long as it said RUNNING |
| `LogProof.StepKeepsLog` | apps/control-plane/src/modules/run/run-lifecycle.service.ts:42-83 | every transaction keeps the log gapless, its status events chained to the current status, and commands numbered 1, 2, 3 with at most one unclaimed |
| `LedgerProof.StepKeepsLedger` | apps/control-plane/src/modules/run/budget.service.ts:4-41 | every transaction keeps call ids unique and the ledger within the budget plus overruns |
| `LedgerProof.StepKeepsGate` | apps/control-plane/src/modules/run/run-lifecycle.service.ts:516-554 | every transaction keeps a dispatched snapshot run free of unresolved usage and with both budgets positive |
| `TimeProof.StepKeepsTime` | apps/control-plane/src/modules/run/run-lifecycle.service.ts:296-303 | every transaction charges an open interval exactly when the run leaves RUNNING, and nothing otherwise |
| `RunTheorems.TokensStayInBudget` | apps/control-plane/src/modules/run/budget.service.ts:4-41 | in every reachable state used-or-reserved tokens exceed the budget by at most the sum of what calls used beyond their reservation, and not at all if none did |
| `RunTheorems.TimeIsConserved` | apps/control-plane/src/modules/run/run-lifecycle.service.ts:510-540 | an interval is open exactly while a snapshot run is RUNNING; charged seconds are the rounded-up intervals plus recorded backoffs; so they lie between the active time and the active time plus a second per attempt plus 30*(2^(maxAttempts-1)-1) |
| `RunTheorems.LiveLeaseBoundsTime` | apps/control-plane/src/modules/internal/internal.controller.ts:79-83 | while an attempt's lease is live, charged and open time together stay below the time budget plus one lease |
| `RunTheorems.NoCallAfterTimeIsUp` | apps/control-plane/src/modules/run/budget.service.ts:18-19 | once charged and open time reach the budget, no model call is reserved |
| `RunTheorems.DispatchedHasCommand` | apps/control-plane/src/modules/run/run-lifecycle.service.ts:551-577 | a dispatched run's newest command asks for attempt number attempts + 1, within the limit |
| `RunTheorems.DispatchedIsClaimable` | apps/control-plane/src/modules/run/run-lifecycle.service.ts:227-249 | claiming that command with a fresh token starts the attempt |
| `RunTheorems.RedispatchGate` | apps/control-plane/src/modules/run/run-control.service.ts:91-98 | a dispatched snapshot run has only settled calls, usedTokens equal to their sum, and a command that carries exactly what is left of both budgets, both positive |
| `RunMoves.StepMoves` | apps/control-plane/src/modules/run/run-lifecycle.service.ts:215-605 | the status changes a single transaction can commit, with the number of attempts it adds |
| `RunMoves.MeasureDecreases` | apps/control-plane/src/modules/run/run-lifecycle.service.ts:525-604 | 3*(maxAttempts - attempts) + rank never grows and falls strictly on each committed status change |
| `RunMoves.RunsTerminate` | apps/control-plane/src/modules/run/run-lifecycle.service.ts:525-604 | any run changes status at most 3*maxAttempts + 1 times, despite the recovery cycle |
| `RunMoves.NewCommandAsksForNext` | apps/control-plane/src/modules/run/run-lifecycle.service.ts:537-577 | only a decision of the policy or a resume by hand sends a command: one, for the next attempt, with what is left of both budgets, from the last checkpoint saved unless it restarts, due after the decided backoff |
| `RunMoves.SavedWorkIsResumed` | apps/control-plane/src/modules/run/run-lifecycle.service.ts:546-549 | after a checkpoint was saved and until the next one is, whatever happens in between, every command that resumes at all resumes from it; a resume by hand always does |
| `PolicyEngine.AtLimitNeverRedispatches` | apps/control-plane/src/modules/policy/policy-engine.ts:24-65 | a step of `JointProof.PolicyHasShape`: no table entry at the attempt limit resumes or restarts |
| `Recovery.FailureOutcome` | apps/control-plane/src/modules/run/run-lifecycle.service.ts:385-399 | in every reachable state: a failure of the running attempt ends it with its code and keeps its patch, and the run waits for a person, fails or is sent out again, exactly by what is missing or spent, the kind of the failure and the attempts left; otherwise nothing changes |
| `Recovery.ExpiryOutcome` | apps/control-plane/src/modules/run/run-lifecycle.service.ts:476-499 | the same for a lease that has run out, as a lost worker |
| `Recovery.TableIsRemedy` | apps/control-plane/src/modules/policy/policy-engine.ts:24-45 | what the table says for every code follows from its kind: go on, start over, ask, give up, or broken rules, and from whether attempts are left |
| `Recovery.EveryCodeHasItsKind` | apps/control-plane/src/modules/policy/policy-engine.ts:24-45 | every failure code is of exactly one of four kinds |
| `Recovery.BackoffDoubles` | apps/control-plane/src/modules/policy/policy-engine.ts:47-59 | half a minute after the first attempt, doubled after each further one, for the two codes worth waiting for; none otherwise |
| `Fencing.EndedAttemptIsFenced` | apps/control-plane/src/modules/run/run-control.service.ts:15-34 | the single step of `Fencing.FencedForEver`: whatever is asked in the name of an attempt that does not run, no row changes |
| `Fencing.DeadlineStopsDispatch` | apps/control-plane/src/modules/run/run-lifecycle.service.ts:516-522 | past its deadline a snapshot run is never dispatched again, by policy or by hand |
| `Fencing.StepOfAttempts` | apps/control-plane/src/modules/run/run-lifecycle.service.ts:356-399 | an attempt row only changes while it runs; exactly one of success, failure, expiry, pause and cancellation takes it out, with the status and code of that one |
| `Fencing.FencedForEver` | apps/control-plane/src/modules/run/run-lifecycle.service.ts:356-388 | after an attempt ended, nothing its token asks for changes a row, in any later state |
| `Fencing.NoLeaseForEver` | apps/control-plane/src/modules/run/run-control.service.ts:15-34 | once the lease of an attempt has run out, or under a token that is not its own, nothing that needs the lease changes a row in any later state; not even a heartbeat renews it |
| `Fencing.TerminalIsFinal` | apps/control-plane/src/modules/run/run-lifecycle.service.ts:525-604 | a finished run keeps its status and rows for ever; only its log, late usage, and the delivery of a success can still change, and a succeeded snapshot run's token account cannot |
| `Fencing.ApprovedBytesAreDelivered` | apps/control-plane/src/modules/run/run-lifecycle.service.ts:328-375 | after a success report with a patch, the newest PATCH artifact, the digest under approval and the job's digest are those of this patch in every later state |
| `TablePaths.EveryStepFollowsTheTables` | apps/control-plane/src/state-machine/state-machine.ts:18-53 | each committed change of run, task and attempts is a walk through the transition tables |
| `TableEdges.SingleEdges` | apps/control-plane/src/state-machine/state-machine.ts:18-53 | in every reachable state a transaction leaves run and task alone or moves each along one edge, if and only if it is none of: an accepted success report, a failure or expiry after which the policy aborts or redispatches, an accepted resume, an accepted approval of a patch-only task; each told by its guards |
| `TableEdges.ResumeIsNoEdge` | apps/control-plane/src/modules/run/run-control.service.ts:98 | a reachable run, claimed and paused by its user, whose resume takes INTERRUPTED to DISPATCHED, which is no edge |
| `TableEdges.ApprovalIsNoEdge` | apps/control-plane/src/modules/github/delivery.service.ts:50 | a reachable patch-only task whose approval takes AWAITING_APPROVAL to RESOLVED, which is no edge |
| `TablePaths.LogTellsTheRun` | apps/control-plane/src/modules/run/run-lifecycle.service.ts:42-67 | the log holds 1..lastSequence and its status events lead, edge by edge, from the status at creation to the current one |
| `StateMachine.RunPredecessors` | apps/control-plane/src/state-machine/state-machine.ts:33-43 | the run table read the other way: from exactly which statuses each can be reached |
| `StateMachine.TaskPredecessors` | apps/control-plane/src/state-machine/state-machine.ts:18-31 | the same for tasks |
| `StateMachine.AttemptPredecessors` | apps/control-plane/src/state-machine/state-machine.ts:45-53 | the same for attempts |
| `Steps.RunBegins` | apps/control-plane/src/modules/task/task-draft.service.ts:86-94 | a run begins dispatched with one command: the first attempt, from scratch, at once, with its whole budgets |
| `Steps.ClaimStep` | apps/control-plane/src/modules/run/run-lifecycle.service.ts:215-252 | in every reachable state a claim is granted if and only if the run is dispatched, the number is the next and the token new; then it appends the running attempt, and otherwise nothing changes |
| `Steps.BeatStep` | apps/control-plane/src/modules/run/run-lifecycle.service.ts:254-264 | the lease is renewed, and nothing else changes, if and only if it is held, live and in time |
| `Steps.BeatsKeepLease` | apps/control-plane/src/modules/run/run-lifecycle.service.ts:254-264 | as long as deadline and time budget last, a worker whose heartbeats are less than a lease apart keeps its lease for any number of them, and nothing else changes |
| `Steps.SaveStep` | apps/control-plane/src/modules/run/run-lifecycle.service.ts:405-433 | a checkpoint is appended if and only if its attempt runs under a live lease; a fixture run keeps the larger token count |
| `Steps.PhaseStep` | apps/control-plane/src/modules/run/run-control.service.ts:35-47 | the phase is stored and logged with the old one if and only if the lease is held in time |
| `Steps.PinStep` | apps/control-plane/src/modules/run/run-control.service.ts:48-57 | the image is pinned if and only if the lease is held in time and no other image is known, here or in the shared table |
| `Steps.SuccessStep` | apps/control-plane/src/modules/run/run-lifecycle.service.ts:355-383 | a success report is accepted if and only if its attempt runs under a live lease and, for a snapshot run, every usage is known; the rows it leaves, patch, digest and accounts included |
| `Steps.PauseStep` | apps/control-plane/src/modules/run/run-control.service.ts:58-68 | a pause takes effect if and only if the lease is held: attempt failed, run and task waiting with the reason, interval charged, patch kept |
| `Steps.CancelStep` | apps/control-plane/src/modules/run/run-control.service.ts:74-86 | an unfinished run is cancelled with its task and running attempt and its interval charged; a finished one stays |
| `Steps.ResumeStep` | apps/control-plane/src/modules/run/run-control.service.ts:87-104 | a run is sent out again by hand if and only if it waits, attempts, both budgets and time are left, every usage is known, and its contract was not refuted |
| `Steps.ReserveStep` | apps/control-plane/src/modules/run/budget.service.ts:10-26 | a call is reserved if and only if the lease is held in time, the id is new and ledger plus amount stay in the budget |
| `Steps.SettleStep` | apps/control-plane/src/modules/run/budget.service.ts:27-41 | a usage is stored once, in the row of its call alone, and the total follows the ledger |
| `Steps.UnknownCall` | apps/control-plane/src/modules/run/budget.service.ts:27-41 | a usage of a call that is not known changes nothing |
| `StaleReads.StaleClaimIsAtomic` | apps/control-plane/src/modules/run/run-lifecycle.service.ts:215-252 | a claim of a snapshot run with run and attempts read at earlier moments, anything in between, changes nothing or commits what one atomic step at lock time would |
| `StaleReads.StaleFailureIsAtomic` | apps/control-plane/src/modules/run/run-lifecycle.service.ts:286-294 | a failure report with stale reads commits what the atomic step would if and only if its attempt has ended or the token counts read agree; for snapshot runs they always do |
| `StaleReads.StaleSuccessIsAtomic` | apps/control-plane/src/modules/run/run-lifecycle.service.ts:355-381 | the same for a success report |
| `StaleReads.StaleExpiryIsAtomic` | apps/control-plane/src/modules/run/run-lifecycle.service.ts:476-499 | an expiry with stale reads always commits what the atomic step would |
| `StaleReads.FixtureReportOverwritesCheckpoint` | apps/control-plane/src/modules/run/run-lifecycle.service.ts:304-313 | a reachable fixture run whose stale report lowers the stored token count |
| `RunServices.Database.TransitionRun` | apps/control-plane/src/modules/run/run-lifecycle.service.ts:69-83 | moves and logs the run if the table and the current status allow it, otherwise throws and changes nothing |
| `RunServices.Database.TransitionTask` | apps/control-plane/src/modules/run/run-lifecycle.service.ts:85-94 | the same for the task, without an event |
| `RunServices.Database.AppendSyntheticEvent` | apps/control-plane/src/modules/run/run-lifecycle.service.ts:42-67 | allocates the next sequence number and stores the event under it and under a key that carries it |
| `RunServices.Database.ClaimAttempt` | apps/control-plane/src/modules/run/run-lifecycle.service.ts:215-252 | commits the claim of the protocol for the rows at lock time; a grant appends one running attempt with the new token; a refusal changes nothing |
| `RunServices.Database.Heartbeat` | apps/control-plane/src/modules/run/run-lifecycle.service.ts:254-264 | extends the lease of a running attempt that holds it and has time left, nothing else |
| `RunServices.Database.PersistExtras` | apps/control-plane/src/modules/run/run-lifecycle.service.ts:296-353 | closes the interval of a snapshot run, or stores the reported numbers of a fixture run, and keeps the patch |
| `RunServices.Database.CompleteSucceeded` | apps/control-plane/src/modules/run/run-lifecycle.service.ts:355-383 | commits the success transaction of the protocol or rolls everything back |
| `RunServices.Database.CompleteFailed` | apps/control-plane/src/modules/run/run-lifecycle.service.ts:385-399 | commits the failure transaction of the protocol, policy included, or rolls everything back |
| `RunServices.Database.HandleLeaseExpired` | apps/control-plane/src/modules/run/run-lifecycle.service.ts:476-499 | commits the expiry transaction of the protocol or rolls everything back |
| `RunServices.Database.ApplyPolicy` | apps/control-plane/src/modules/run/run-lifecycle.service.ts:502-605 | charges the open interval, stops on unknown usage or an exhausted budget, records the decision and carries it out, as the protocol does |
| `RunServices.Database.Redispatch` | apps/control-plane/src/modules/run/run-lifecycle.service.ts:537-590 | charges the backoff, stops if that spends the budget, otherwise writes the next command and recovers the run |
| `RunServices.Database.SaveCheckpoint` | apps/control-plane/src/modules/run/run-lifecycle.service.ts:405-433 | appends the checkpoint of an attempt that owns a running run; a fixture's token count only grows |
| `RunServices.Database.SetPhase` | apps/control-plane/src/modules/run/run-control.service.ts:35-47 | stores and logs the phase under a valid lease |
| `RunServices.Database.Environment` | apps/control-plane/src/modules/run/run-control.service.ts:48-57 | pins the image once; a different image, here or in the shared table, is refused |
| `RunServices.Database.Pause` | apps/control-plane/src/modules/run/run-control.service.ts:58-68 | interrupts the run under its lease, even when its time is up: charges the interval, fails the attempt, keeps the patch |
| `RunServices.Database.Cancel` | apps/control-plane/src/modules/run/run-control.service.ts:74-86 | cancels run, task and running attempt, charges the interval; idempotent, refused for other finished runs |
| `RunServices.Database.Resume` | apps/control-plane/src/modules/run/run-control.service.ts:87-104 | sends an interrupted snapshot run out again only with budget, attempts, settled usage and a valid contract left |
| `RunServices.Database.Reserve` | apps/control-plane/src/modules/run/budget.service.ts:10-26 | reserves exactly if the lease, the deadline, the time, a new id and the token budget allow it |
| `RunServices.Database.Settle` | apps/control-plane/src/modules/run/budget.service.ts:27-41 | stores the usage of a known call once and recomputes the run's total; repeating it is accepted only with the same usage |
| `RunServices.Database.Total` | apps/control-plane/src/modules/run/budget.service.ts:4-6 | the loop over the ledger computes the sum of used-or-reserved |
| `RunServices.Database.Approve` | apps/control-plane/src/modules/github/delivery.service.ts:40-56 | approves only the newest patch with the digest under approval; a pull-request task gets one queued job with that digest |
| `RunServices.Database.Reject` | apps/control-plane/src/modules/github/delivery.service.ts:29-39 | rejects a pending approval, once |
| `RunServices.Database.Retry` | apps/control-plane/src/modules/github/delivery.service.ts:57-67 | queues a failed job again while attempts are left |
| `RunServices.Database.ClaimDelivery` | apps/control-plane/src/modules/github/delivery.service.ts:72-87 | retires an exhausted job whose lease ran out, then claims a free one and counts the attempt |
| `RunServices.Database.FinishDelivery` | apps/control-plane/src/modules/github/delivery.service.ts:95-109 | stores a result only for the token that owns the running job |
| `BudgetedModel.ModelCaller.BudgetCall` | apps/agent-runtime/src/arp_runtime/agents/budgeted_model.py:31-63 | on every way through a call: what is reserved, invoked and settled, in which order and how often; that the settlement, last, carries the usage as reported or that it is not known; when a result is handed on; the timeout lifted again |
| `TokenSafety.TokensAreSafe` | apps/agent-runtime/src/arp_runtime/agents/budgeted_model.py:31-63 | whatever happens between the events of any number of calls, tokens billed exceed the budget by no more than what calls used beyond their bounds; if none did, billed <= ledger <= budget |
| `TokenSafety.AccountsAreExact` | apps/agent-runtime/src/arp_runtime/agents/budgeted_model.py:44-61 | once every granted call is settled with a known usage, the ledger and the used-tokens column hold exactly what was billed |
| `TokenSafety.LedgerCoversSpending` | apps/control-plane/src/modules/run/budget.service.ts:27-41 | call by call, what was billed within the bound is covered by the ledger |
| `ToolBatch.CrashRecovery` | apps/agent-runtime/src/arp_runtime/agents/self_agent/graph.py:286-315 | restoring the newest checkpoint and replaying the batch applies exactly the patches still missing if and only if no patch that raised in the first run, or had no id, has become applicable by then; then the workspace is the uninterrupted one |
| `ToolBatch.ResultsAreFoundAgain` | apps/agent-runtime/src/arp_runtime/tools/toolset.py:92-98 | a patch with an id that gave a result in the first run, applied, skipped or known before, is answered from the cache in the replay, with that result and without any effect, in whatever workspace |
| `ToolBatch.QuietReplay` | apps/agent-runtime/src/arp_runtime/agents/self_agent/graph.py:296-307 | after a quiet prefix the replay has no effect on the prefix and does for the rest what the first run did, each patch once |
| `ToolBatch.LoudReplay` | apps/agent-runtime/src/arp_runtime/tools/toolset.py:189-216 | otherwise the replay applies a patch for which the first run had left no result |
| `ToolBatch.PatchTwiceIsOnce` | apps/agent-runtime/src/arp_runtime/tools/toolset.py:191-198 | a patch sent again right away, under whatever id, is not applied a second time |
| `ToolBatch.RestoreGivesCheckpoint` | apps/agent-runtime/src/arp_runtime/runner.py:66-75 | restoring the saved difference at the base commit gives the workspace and completed calls of the checkpoint |
| `ToolBatch.CheckpointOf` | apps/agent-runtime/src/arp_runtime/agents/self_agent/graph.py:222-234 | the j-th checkpoint of a batch holds the state after its first j calls |
| `Toolset.Sandbox.ApplyPatch` | apps/agent-runtime/src/arp_runtime/tools/toolset.py:189-216 | already there: skipped; applicable: applied; neither: raises and changes nothing |
| `Toolset.Sandbox.Dispatch` | apps/agent-runtime/src/arp_runtime/tools/toolset.py:85-119 | a completed id is answered from the cache, a call that raises is not recorded; a patch is looked up and recorded under the id of the model whatever it is, everything else under a new one |
| `Toolset.Sandbox.ToolsNode` | apps/agent-runtime/src/arp_runtime/agents/self_agent/graph.py:222-234 | runs the batch in order and leaves one checkpoint per call |
| `Toolset.Sandbox.Replay` | apps/agent-runtime/src/arp_runtime/agents/self_agent/graph.py:296-307 | runs the batch through the cache and leaves no checkpoint; every patch whose id is known gets the result that is known |
| `Toolset.Sandbox.RestoreFromCheckpoint` | apps/agent-runtime/src/arp_runtime/runner.py:153-167 | rebuilds workspace and cache from a checkpoint, or fails |
| `FileWorkspaces.FileGitIsLawful` | apps/agent-runtime/src/arp_runtime/runner.py:62-75 | the assumptions about git diff and git apply are satisfiable: whole-file edits meet them |
| `FileWorkspaces.FailedPatchComesBack` | apps/agent-runtime/src/arp_runtime/tools/toolset.py:101-111 | a batch whose crash recovery ends in another workspace than the uninterrupted run |
| `EventLog.IngestIsIdempotent` | apps/control-plane/src/modules/events/trace-event-ingestor.ts:97-119 | a first delivery is stored with its content under the next number, any further one changes nothing, and the log stays gapless |
| `EventLog.EmitKeepsGapless` | apps/control-plane/src/modules/run/run-lifecycle.service.ts:42-67 | events of the control plane never collide with another key and keep the log gapless |
| `Ingestor.Consumer.Store` | apps/control-plane/src/modules/events/trace-event-ingestor.ts:102-119 | counter and row go in together, or neither if the key is taken |
| `Ingestor.Consumer.HandleEntry` | apps/control-plane/src/modules/events/trace-event-ingestor.ts:85-140 | an event with a new key goes in with its own content, anything else leaves the log alone; acknowledged, if that gets through: malformed, stored, or already stored; left pending: unparseable, unknown run, or any other failure |
| `Ingestor.NothingIsLost` | apps/control-plane/src/modules/events/trace-event-ingestor.ts:85-140 | for any deliveries, redeliveries, races and failures: numbers 1..lastSequence, keys unique, stored rows stay, each the copy of a delivered event; what is acknowledged is malformed or stored, with its own content where keys tell events apart |
| `Ingestor.FirstIsKept` | apps/control-plane/src/modules/events/trace-event-ingestor.ts:97-119 | of several events under one key the first that is stored stays at its place with its content, whatever comes later |
| `Ingestor.OneDeliveryIsEnough` | apps/control-plane/src/modules/events/trace-event-ingestor.ts:97-131 | an event delivered once without a fault is stored with its content and acknowledged, whatever came before and comes after |
| `EventView.EventStream.constructor` | apps/control-plane/src/modules/events/sse.controller.ts:16-17 | the cursor starts at the header, else the query, else at 0 for anything that is not a safe non-negative integer |
| `EventView.EventStream.Drain` | apps/control-plane/src/modules/events/sse.controller.ts:20-37 | writes the next page in order, at most 500 rows, and leaves the cursor at the last row written even if the connection closes in between |
| `EventView.MergeAddsOnce` | apps/web/src/lib/use-run-events.ts:17-21 | merging keeps the list ascending and adds exactly the event that is not there yet |
| `EventView.StreamAloneIsExact` | apps/web/src/lib/use-run-events.ts:28-46 | through any disconnects, reconnects and retries, a page fed by the stream holds exactly events 1..m, m being the newest id it has seen |
| `EventView.StreamCatchesUp` | apps/control-plane/src/modules/events/sse.controller.ts:20-37 | from any state in which it misses nothing below its newest id, a page that connects again and stays connected shows the whole log after the pages that are left |
| `EventView.PageIsNext` | apps/control-plane/src/modules/events/sse.controller.ts:24-26 | a page holds the rows right after the cursor, five hundred or all there are |
| `EventView.ViewIsExact` | apps/web/src/app/runs/[runId]/page.tsx:56-61 | with the page's own list as well, it holds exactly events 1..n with n >= m, provided no list arrives behind the stream |
| `EventView.CompleteWhileFresh` | apps/web/src/app/runs/[runId]/page.tsx:56-61 | along any steps the page misses no event it has seen if and only if no list arrives behind the stream |
| `EventView.LoadKeepsComplete` | apps/web/src/app/runs/[runId]/page.tsx:56-61 | a list that arrives leaves the page complete if and only if it reaches the newest event seen |
| `EventView.LateListLosesEvents` | apps/web/src/app/runs/[runId]/page.tsx:56-61 | a list behind the stream removes events that no later stream event brings back |
| `EventView.ListCanBeOvertaken` | apps/web/src/app/runs/[runId]/page.tsx:56-61 | such a list can arrive: five steps from an empty page |
| `Dispatch.ExecutedAtMostOnce` | apps/agent-runtime/src/arp_runtime/worker.py:196-230 | under any republishing, redelivery, reclaim or lost claim each attempt number is started by at most one worker, and attempts are numbered without gaps |
| `Dispatch.AcknowledgedIsSettled` | apps/agent-runtime/src/arp_runtime/worker.py:199-218 | an acknowledged entry was started or belongs to a cancelled run, unless it is a fixture command with a claim that was lost or is still on its way |
| `Dispatch.BackoffIsKept` | apps/control-plane/src/modules/dispatch/outbox-publisher.ts:46-62 | no command is added to the stream before its backoff is over |
| `Dispatch.DispatchedCanStart` | apps/control-plane/src/modules/dispatch/outbox-publisher.ts:36-68 | from every dispatched state, waiting, reconciling and publishing once more lets a worker start the next attempt; for a fixture run, once its newest command is no longer remembered as taken up |
| `Dispatch.AnsweredIsAcknowledged` | apps/agent-runtime/src/arp_runtime/worker.py:209-265 | a worker whose claim is answered starts the attempt and acknowledges the entry when it is over, or acknowledges it at once, refused, with nothing changed |
| `Dispatch.FixtureCommandSwallowed` | apps/agent-runtime/src/arp_runtime/worker.py:199-203 | in every reachable state a claimable fixture command is acknowledged unstarted if and only if it is still remembered as taken up, which implies that a claim of it was lost or is still on its way |
| `Dispatch.FixtureCommandCanBeSwallowed` | apps/agent-runtime/src/arp_runtime/worker.py:199-203 | that happens for good, as far as the entry goes, when the first claim is lost on its way |
| `OutboxPublisher.Publisher.Tick` | apps/control-plane/src/modules/dispatch/outbox-publisher.ts:32-80 | table and stream after a poll are those of publishing what is due after reconciling; nothing is marked as published that was not added to the stream; what is due by then and behind no full batch goes out; one poll at a time |
| `OutboxPublisher.Publisher.PublishDue` | apps/control-plane/src/modules/dispatch/outbox-publisher.ts:46-75 | exactly the due messages of the batch are tried, in order, each once, and marked or counted as failed |
| `OutboxPublisher.Publisher.Reconcile` | apps/control-plane/src/modules/dispatch/outbox-publisher.ts:36-45 | exactly the overdue newest messages wait again, all others stay as they are |
| `OutboxPublisher.PublishAllAt` | apps/control-plane/src/modules/dispatch/outbox-publisher.ts:52-75 | every message that is not due is left alone |
| `OutboxPublisher.RowIsMarkedOrCounted` | apps/control-plane/src/modules/dispatch/outbox-publisher.ts:54-72 | a message that is tried is marked as published or has its failure counted, and nothing else of it changes |
| `OutboxPublisher.OverdueAfterAMinute` | apps/control-plane/src/modules/dispatch/outbox-publisher.ts:36-45 | a published message is overdue if and only if that was more than a minute ago |
| `OutboxPublisher.OldestFirst` | apps/control-plane/src/modules/dispatch/outbox-publisher.ts:46-50 | a due message is only passed over behind a full batch of older ones |
| `CommandWorker.Worker.HandleEntry` | apps/agent-runtime/src/arp_runtime/worker.py:196-265 | executes exactly when its one claim was granted, reports then, and leaves an entry pending exactly if it cannot be read or the claim got no usable answer |
| `DeliveryTheorems.DeliveryIsCoupled` | apps/control-plane/src/modules/github/delivery.service.ts:29-111 | in every reachable state job, task and recorded address tell the same: QUEUED or RUNNING iff APPROVED, SUCCEEDED iff PR_CREATED, FAILED or NEEDS_ATTENTION iff PR_FAILED; at most five attempts |
| `DeliveryTheorems.DecisionIsFinal` | apps/control-plane/src/modules/github/delivery.service.ts:29-56 | a decided approval never flips and keeps its digest |
| `DeliveryTheorems.StaleTokenNeverRecords` | apps/control-plane/src/modules/github/delivery.service.ts:95-108 | a token that was superseded records neither result nor error, however late |
| `DeliveryTheorems.ApproveStep` | apps/control-plane/src/modules/github/delivery.service.ts:40-56 | an open approval with a patch is always granted: the identity check never fails; a pull-request task gets its one fresh job |
| `DeliveryTheorems.RejectStep` | apps/control-plane/src/modules/github/delivery.service.ts:29-39 | an open approval is rejected with its task; a decided one stays |
| `DeliveryTheorems.RetriedDeliveryRuns` | apps/control-plane/src/modules/github/delivery.service.ts:57-67 | a failed job with attempts left is queued again, and the next claim runs it with one more attempt and ten minutes of lease |
| `DeliveryTheorems.ClaimJobStep` | apps/control-plane/src/modules/github/delivery.service.ts:79-87 | a job is claimed, for ten minutes and one more attempt, if and only if it waits or its lease has run out, with attempts left |
| `DeliveryTheorems.GiveUpStep` | apps/control-plane/src/modules/github/delivery.service.ts:72-78 | a job is given up if and only if it runs in its fifth attempt and its lease has run out |
| `DeliveryTheorems.RenewStep` | apps/control-plane/src/modules/github/delivery.service.ts:89-93 | the lease is renewed if and only if its token owns the running job |
| `DeliveryTheorems.PinStep` | apps/control-plane/src/modules/github/delivery.service.ts:151 | the commit of a job is kept with it |
| `DeliveryTheorems.RecordPrStep` | apps/control-plane/src/modules/github/delivery.service.ts:95-100 | the owner records the address in job, approval and task; nobody else does |
| `DeliveryTheorems.RecordErrorStep` | apps/control-plane/src/modules/github/delivery.service.ts:101-109 | the owner records its failure, a conflict for a person, anything else to be retried; nobody else does |
| `DeliveryTheorems.OverIsFinal` | apps/control-plane/src/modules/github/delivery.service.ts:57-109 | a delivery that succeeded, met a conflict or failed five times stays as it is for ever |
| `PrDelivery.AtMostOnePullRequest` | apps/control-plane/src/modules/github/delivery.service.ts:112-164 | with death or error after any step and anybody acting in between, at most one pull request with the job's marker is opened and every push is the one commit of the approved patch |
| `PrDelivery.UndisturbedDelivery` | apps/control-plane/src/modules/github/delivery.service.ts:112-164 | the outcome of a delivery that nothing disturbs, for every state of the hosting service: it records the marked pull request if there is one; ends in a conflict, changing nothing, if there is another, the target moved or the branch stands elsewhere; and otherwise the branch is at the commit, pushed once unless it stood there, and one pull request is opened and recorded |
| `PrDelivery.TickGivesUp` | apps/control-plane/src/modules/github/delivery.service.ts:72-78 | a delivery that died in its fifth attempt is given up by a later tick, which starts nothing |
| `PrDelivery.VerifiedBytesArePushed` | apps/control-plane/src/modules/github/delivery.service.ts:132-157 | after an accepted success report with a patch, whatever happens, every push there ever is is the commit of that patch |
| `PrDelivery.SamePullRequestForEver` | apps/control-plane/src/modules/github/delivery.service.ts:126-128 | once it exists it stays the only one and every later delivery ends with its address |
| `PrDelivery.RetryReturnsSamePr` | apps/control-plane/src/modules/github/delivery.service.ts:126-128 | whatever happened since it was opened, the next delivery that nothing disturbs finds it, changes nothing outside and records it as the result |
| `PrDelivery.NothingLeavesUnchecked` | apps/control-plane/src/modules/github/delivery.service.ts:130-160 | a delivery that pushes has twice seen the expected target and once its own live lease; one that opens the pull request, once more each |
| `PrDelivery.PushOnlyCreates` | apps/control-plane/src/modules/github/delivery.service.ts:153-157 | a delivery creates the branch at the deterministic commit or leaves it alone |
| `Verifier.Pipeline.Run` | apps/agent-runtime/src/arp_runtime/verifier/pipeline.py:136-220 | the report and the recorded results are those of the gates in order; the benchmark's tests go in only behind V1, V2 and V6 and are out on return if the rollback works, also when the sandbox is lost |
| `Verifier.Pipeline.RunWithTests` | apps/agent-runtime/src/arp_runtime/verifier/pipeline.py:184-218 | the commands run between putting the benchmark's tests in and taking them out, whatever a command does; only a failing rollback leaves them in |
| `Verifier.Pipeline.RunCommands` | apps/agent-runtime/src/arp_runtime/verifier/pipeline.py:115-134 | the first command that is not fine decides; all fine passes |
| `Verifier.VerifierIsFailClosed` | apps/agent-runtime/src/arp_runtime/verifier/pipeline.py:45-50 | passes if and only if every gate is fine, then with V1, V2, V6, V3, V4, V5 recorded and passed; otherwise, the sandbox lost apart, exactly one result failed, it is the last, and its code is reported; the steps before it are the first in that order |
| `Verifier.PassMeansClean` | apps/agent-runtime/src/arp_runtime/verifier/pipeline.py:157-211 | passes if and only if the patch is not blank, the listed files are all allowed and neither tests nor protected, the benchmark's tests can be put in, and every command succeeds, original test coverage included |
| `ChangedFiles.PassIsCleanExactly` | apps/agent-runtime/src/arp_runtime/verifier/pipeline.py:60-65 | of the workspace itself, whatever the specification, a pass means this if and only if Git managed to list it, nothing was renamed and no name has to be quoted or is blank, or the list shows a test, so that nothing passes |
| `ChangedFiles.ListIsComplete` | apps/agent-runtime/src/arp_runtime/verifier/pipeline.py:60-65 | the list names every changed file under exactly that condition |
| `ChangedFiles.QuotedTestPasses` | apps/agent-runtime/src/arp_runtime/verifier/pipeline.py:68-69 | a changed test whose name has to be quoted is taken for no test: its line begins with the quote |
| `ChangedFiles.AccentedIsQuoted` | apps/agent-runtime/src/arp_runtime/verifier/pipeline.py:60-65 | such a name: `test_` followed by a letter with an accent |
| `Verifier.AllCommandsFine` | apps/agent-runtime/src/arp_runtime/verifier/test_contract.py:19-21 | a step is fine if and only if each of its commands is, original test coverage included |
| `Verifier.CommandIsFine` | apps/agent-runtime/src/arp_runtime/verifier/pipeline.py:115-134 | a command is fine if and only if it succeeds; which code its failure gets |
| `Verifier.StepsHaveCodes` | apps/agent-runtime/src/arp_runtime/verifier/pipeline.py:136-211 | each step fails with its own code; a command step with tampering only under the contract |
| `Verifier.TestsByName` | apps/agent-runtime/src/arp_runtime/verifier/pipeline.py:26-69 | a path is a test if and only if it begins with test_ and has no slash, or /test_, tests/, .test. or .spec. stands in it |
| `Canonical.QuoteReads` | apps/control-plane/src/modules/task/task-snapshot.service.ts:8-10 | a printed string, escapes and lone surrogates included, reads back, whatever follows |
| `Canonical.PrintIsUnambiguous` | apps/control-plane/src/modules/task/task-snapshot.service.ts:4-11 | no two values print alike, even inside a longer text |
| `CanonicalExact.CanonicalOfObject` | apps/control-plane/src/modules/task/task-snapshot.service.ts:6-9 | sorting an object's entries and printing each value canonically is the same as sorting at every depth first |
| `CanonicalExact.TextIdentifies` | apps/control-plane/src/modules/task/task-snapshot.service.ts:4-11 | whatever the key comparison, equal texts mean values equal up to key order |
| `CanonicalExact.ExactWithoutTies` | apps/control-plane/src/modules/task/task-snapshot.service.ts:4-11 | for each value: its text is that of exactly the values equal to it up to key order, if and only if no object inside it has two distinct keys that compare as equal |
| `CanonicalExact.AlwaysExact` | apps/control-plane/src/modules/task/task-snapshot.service.ts:4-11 | the text is exact in this sense for every value if and only if the collation ties no two distinct keys at all |
| `CanonicalExact.TieShows` | apps/control-plane/src/modules/task/task-snapshot.service.ts:7 | of arbitrary JSON: a value with tied keys equals one whose text is another, by swapping the two |
| `CanonicalExact.EquivalentKeysShow` | apps/control-plane/src/modules/task/task-snapshot.service.ts:7 | such a value: an object with the precomposed and the decomposed spelling of one letter as keys |
| `CanonicalExact.DigestIdentifies` | apps/control-plane/src/modules/task/task-snapshot.service.ts:12-14 | equal digests always mean values equal up to key order; for a value without tied keys the converse holds too |
| `SnapshotDigest.SnapshotDigestIsExact` | apps/control-plane/src/modules/task/task-draft.service.ts:65-66 | two snapshots that passed the strict schema have one digest if and only if they are equal up to key order |
| `SnapshotDigest.PlainDigestIsExact` | apps/control-plane/src/modules/task/task-draft.service.ts:30 | a saved and a requested environment value have one digest if and only if they are equal |

## Left out

- TablePaths.LogTellsTheRun: a phase change is logged as a state transition of the run too; the model keeps phase events apart from status events, so a reader of the raw events has to tell them apart by their values.
- StaleReads.StaleClaimIsAtomic: stated for snapshot runs; the claim of a fixture run may carry over the interval start it read, which only its deliberately loose time account sees.
- TokenSafety.TokensAreSafe: settlements that nobody's call produced are not part of the model; the settle route itself asks for no lease and would accept them.
- ToolBatch.CrashRecovery: one crash per batch. A replay saves no checkpoint, so a second crash after the replayed answers were stored and before the next tool call restores the old workspace and does not replay again. A command that changes files is not part of the model either; it would run again in a replay.
- Dispatch.DispatchedCanStart: says what is always possible, not that the scheduler does it; when the memory of a fixture command runs out is an act of its own and not tied to the hour it lasts.
- PrDelivery.AtMostOnePullRequest: deliveries do not overlap. Two of them past an expired lease rely on the hosting service to refuse the second pull request.
- `PrDelivery` is a system of steps and not one method, because others act between its effects; cloning, credentials, the inspection of the source pull request and temporary files are one step that may fail.
- `RunServices` methods run under the row lock; interleaving is the business of `RunSystem`, and values read before the lock are parameters.
- Heartbeat: the lease check of its route and the update that follows are one step.
- Completion and checkpoints: the lease and time check of their routes is not required, so the model admits more reports than the routes let through.
- Several runs at once: rows of one run; uniqueness of call ids and lease tokens across runs, and events of another run under the same key, are not part of the model.
- Worker event keys are taken to be disjoint from the control plane's keys.
- The shared environment table is reduced to the image it holds for the fingerprint.
- Fixture runs: their own approval path, their mock pull requests, and their looser time and token accounts beyond what the table says.
- A snapshot's budget columns are those of its run; the seven-day deadline is a constant of the run.
- Verification rows, judge reports, retained evidence, names of those who approve and error texts of rows: stored and never read by the protocol.
- Capacity limits, confirmation of drafts and fixture admission before a run exists.
- Redis, HTTP, Docker and Prisma mechanics, signal handling, logging and retries of the consumer loops.
- Failure classification, prompts, context folding, stuck detection and the judge: they choose inputs of the protocol, no more.
- Glob matching, Git and command execution of the verifier are inputs; how the list of changed files comes about is modelled in `ChangedFiles`. Files that Git ignores, and caches that are never added, are not part of the diff nor of this.
- Verifier.Pipeline.Run: a time-out of one of Git's commands, listing the changes or putting the benchmark's tests in or out, leaves the verifier as an exception; only a refusal is modelled.
- OutboxPublisher.Publisher.PublishDue: if counting a failed attempt fails as well, the poll ends there and the rest of the batch waits for the next one; likewise if reconciling fails. The model counts every failure.
- CommandWorker.Worker.HandleEntry: errors of the stream itself, when remembering, reading or acknowledging, leave the entry pending and are not modelled.
- JSON numbers are identified with the text printed for them; of the snapshot schema the keys and the nesting are modelled, not the ranges of single values.
- The run page beyond its event list, the evaluation scripts, webhooks and the command guard.
