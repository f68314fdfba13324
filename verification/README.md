# AstrumWeaver: a verified model of the job-lease control plane, the Worker and reviewed setup

AstrumWeaver leases jobs to GPU Workers.  A control repository keeps worker and job rows,
hands out leases with one-time tokens and reserves GPUs; a Worker polls for one job at a time,
renews its lease by heartbeats and reports one result; a reviewed setup engine installs and
migrates Workers on systemd hosts and renders NixOS snippets.  This project models those parts
and proves what they guarantee over whole runs, every interleaving and every pattern of failures.

How the modules fit together:

- `Contracts` holds the records; `Scheduling` and `ClaimFilter` the matcher, the stored form of
  requirements and the SQL filter over it.
- `Ledger` is the control plane as one atomic event system, `LedgerInvariant` its invariant,
  `LedgerRuns` the theorems about runs and `LedgerOutcomes` what a row says of the run.  Both repositories refine it: `InMemory` is the
  in-memory class, each method one event; `Postgres` cuts every transaction into statements with
  advisory and row locks, and `PostgresInvariant`, `PostgresCommit`, `PostgresRuns` and
  `PostgresLocks` show that each commit is one ledger event, in any interleaving, and that
  locks are taken in rising rank.  The advisory key function is arbitrary and may collide.
- `Supervision` and `Lifecycle` are the health supervisor and the runtime manager, each as a
  state machine and as a class.  `WorkerLoop` is the execution loop cut at its awaits, next to
  them, with drain requests, signals, lost replies and cancellation; `WorkerLoopInvariant`,
  `WorkerLoopSteps`, `WorkerLoopSafety`, `WorkerLoopTokens` and `WorkerLoopPace` hold its proofs
  and `WorkerObject` the methods.
- `SetupApply` is plan application with rollback over any driver, `Planner` the plan itself,
  `Systemd` the systemd driver under an arbitrary fault sequence, `SystemdDriver` its methods,
  `SystemdRestore` what each undo gives back, `SystemdMigration` where a whole planned migration
  ends, `SystemdFiles` what becomes of rendered files, `SystemdStarts` of the started service,
  `SystemdGuards` what a plan leaves alone and `SystemdExamples` the failures that stay.
- `UnitMigration` is the Worker unit's parser and textual patch, `UnitRoundTrip` its round trip,
  `UnitPatch` when the patch goes through, `UnitTemplate` the installed template and `UnitCounts`
  which installed units are patched; `NixString` and `JsonText` are the rendering of strings and JSON values into Nix literals.

Time is an integer in the control plane and a real in the Worker.  Fresh UUIDs are arguments that
must not have been used before.  Payloads, results, errors and metadata are opaque and compared
for equality only.  A call into code outside the model (a runtime, systemctl, the network) is an
argument or an entry of an arbitrary sequence of outcomes.

Where a promise turned out not to hold as stated, the exact condition is proved next to it,
together with an input that shows the failure:

- The SQL filter casts resource minima to 32-bit integers, so it agrees with the matcher exactly
  when all three minima fit (`ClaimFilter.FilterAgreesWithMatcher`); a minimum of 2147483648 is
  accepted on submission and raises for every worker (`ClaimFilter.WideMinimumRaises`).
- A repeated submission with an explicit availability time finds its job again only if the last
  retry happened at that very time (`LedgerRuns.ReplayReturnsSameJob`); a run of four events ends
  in a conflict (`LedgerRuns.RetryClashes`).
- Transactions ask for locks in rising rank and cannot deadlock, but for the bulk expiry, which
  locks rows in no stated order (`PostgresLocks.WaitCyclesAreExpiries`): two expiries over two
  stale workers can wait for each other (`PostgresLocks.ExpiriesCanDeadlock`), as a run from the
  empty database shows (`PostgresExamples.ExpiriesDeadlockRun`).
- A worker is taken offline only when it is past its time to live, by a bulk expiry
  (`PostgresRuns.OfflineMeansStale`) but not by a claim, which goes by the row it read when it
  started: a worker whose heartbeat commits in between ends up offline although it was heard from
  just now (`PostgresExamples.FreshWorkerExpelled`).
- A released runtime manager that starts its runtime again without reaching readiness keeps its
  released flag, and the next shutdown skips the started runtime
  (`Lifecycle.RelapseLeaksTheRuntime`).  A caller can tell beforehand: the flag is safe whatever
  the runtime does exactly when the manager has not released it
  (`Lifecycle.ReadySafeUnlessReleased`) or, knowing the first health answer, exactly when that
  answer does not make it start a released runtime (`Lifecycle.ReadySafeExactly`); runs that keep
  to this guard stay truthful (`Lifecycle.GuardedRunsAreTruthful`).
- A terminal write does not always take its token out of later heartbeats.  Some continuation
  presents it exactly when the write was not acknowledged, the Worker is managed or the reply was
  a conflict, and the Worker is still enrolled and not stopping
  (`WorkerLoopTokens.TokenLingersExactly`, `WorkerLoopSafety.LostReplyAllowsBeat`).
- A rendering that raises leaves the files unchanged exactly when its failing write had not
  replaced its file (`SystemdRestore.RenderRaisesClean`, `SystemdExamples.TornWriteStays`), and
  that is the one way a plan that fails does not give rendered files back
  (`SystemdFiles.FailureRestoresFiles`).
- A migration that fails, by a failing call, a blocked inspection, a refused preflight or a failed
  health check, is undone completely unless the failing call is the stop and it had stopped the
  Worker (`SystemdMigration.OneFailureRestores`, `SystemdExamples.StopMayStay`).
- A plan that fails on a host whose service is stopped leaves it stopped, unless the failing call
  is a start that had come up and nothing that is undone stops it
  (`SystemdStarts.FailureStopsService`, `SystemdExamples.StartMayStay`).
- A plan is restored by every failure of every lawful driver exactly when all its actions but the
  last can be undone (`SetupApply.RestoresExactly`).  No built plan is, since it starts with a
  directory (`Planner.PlannedDoesNotAlwaysRestore`, `SetupApply.IrreversibleStays`); a driver whose
  irreversible actions find nothing to change restores it (`Planner.PlannedRestores`).
- An installed unit is patched exactly when its user does not end with the environment line and,
  in a smoke unit, does not contain the start line (`UnitCounts.InstalledUnitsPatch`,
  `UnitCounts.AmbiguousIsRefused`).
- A string survives a Nix literal exactly when it has no control character but newline, carriage
  return and tab (`NixString.NixRoundTrip`, `NixString.ControlIsLost`); a JSON value survives
  exactly when no string in it holds a surrogate pair as two code points
  (`JsonText.ValueThroughNix`, `JsonText.SplitPairIsJoined`).

## Model

| member | source | states |
|---|---|---|
| Scheduling.MatchWorker | src/astrumweaver/scheduling.py:21-47 | the reasons are exactly the unmet requirements, each once and in the order of the checks, labels in any dictionary order among themselves; matched means no reason, which is the declarative match |
| Scheduling.CheckLabels | src/astrumweaver/scheduling.py:32-34 | the label loop reports every label that differs, each once and after the earlier reasons, in any dictionary order, and nothing else |
| Scheduling.CheckResources | src/astrumweaver/scheduling.py:39-45 | the three resource checks append exactly their unmet minima, each once and in order |
| Scheduling.MatchesMissingNothing | src/astrumweaver/scheduling.py:50-53 | a worker matches if and only if it misses none of the requirements |
| ClaimFilter.SortedAscends | src/astrumweaver/control/serde.py:14-16 | the stored lists are ascending without repetition |
| ClaimFilter.RequirementsRoundTrip | src/astrumweaver/control/serde.py:11-33 | reading the stored form of valid requirements gives them back |
| ClaimFilter.FilterAgreesWithMatcher | src/astrumweaver/control/postgres.py:630-687 | over the stored form the SQL filter accepts exactly when the capability is advertised and the worker matches, if all minima fit 32 bits, and raises otherwise |
| ClaimFilter.WideMinimumRaises | src/astrumweaver/control/postgres.py:630-687 | a valid submission whose minimum is one above 32 bits makes the filter raise for every worker |
| LedgerInvariant.EventKeepsValid | src/astrumweaver/control/repository.py:187-548 | every accepted event keeps job shape, token uniqueness, exact counters, running jobs that fit and GPU exclusivity |
| LedgerInvariant.HeartbeatRecount | src/astrumweaver/control/repository.py:248-292 | recounting active jobs in a heartbeat changes nothing, so it cannot turn an offline non-owner into an owner |
| LedgerInvariant.JobLeaves | src/astrumweaver/control/repository.py:419-427 | ending an attempt lowers the counter by exactly one; the clamp at zero never acts |
| LedgerInvariant.ClaimKeepsValid | src/astrumweaver/control/repository.py:358-400 | a claim keeps the invariant: capacity, fit, exclusivity and token freshness |
| LedgerInvariant.RegisterKeepsValid | src/astrumweaver/control/repository.py:187-216 | re-registration keeps running jobs fitting and GPUs exclusive |
| LedgerRuns.RunsStayValid | src/astrumweaver/control/repository.py:165-216 | every state of every run satisfies the whole invariant |
| LedgerRuns.Fencing | src/astrumweaver/control/repository.py:402-417 | once no job runs under an issued token, no later complete, fail or renewing heartbeat with it is accepted, in any continuation |
| LedgerRuns.EndKillsToken | src/astrumweaver/control/repository.py:429-548 | whatever ends an attempt leaves its token dead |
| LedgerRuns.LapsedStaysLapsed | src/astrumweaver/control/repository.py:402-417 | with clocks that do not run behind, an expired lease is never revived and its token never accepted |
| LedgerRuns.OneAuthority | src/astrumweaver/control/repository.py:402-548 | at one moment a running job is either its holder's to complete or fail, or recovery's to take, never both and never neither |
| LedgerRuns.LifecycleStep | src/astrumweaver/control/repository.py:372-548 | terminal rows never change, each event leads to the status its kind, the retry verdict and the attempts left say, and every status change strictly lowers the life measure |
| LedgerRuns.ClaimsBounded | src/astrumweaver/control/repository.py:372-400 | over a run a job's attempts count its claims, at most max_attempts of them |
| LedgerRuns.StatusChangesBounded | src/astrumweaver/control/repository.py:476-546 | a job changes status at most as often as its measure says, however long the run |
| LedgerRuns.KeyFindsJob | src/astrumweaver/control/repository.py:309-322 | an idempotency key belongs to at most one job, so the outcome of submitting is determined |
| LedgerRuns.SubmitAnswers | src/astrumweaver/control/repository.py:130-143 | a keyed submission gets a job back exactly when the job with its key was asked for in the same words, a time counting only if named; it is new exactly when no job has its key |
| LedgerRuns.RequestKept | src/astrumweaver/control/repository.py:324-345 | the request fields, the number and the creation time of a job never change; its availability is that of its last requeue or the original |
| LedgerRuns.ReplayReturnsSameJob | src/astrumweaver/control/repository.py:130-143 | after any run an identical submission returns the same job exactly when it named no time or the last requeue happened at that time |
| LedgerRuns.RetryClashes | src/astrumweaver/control/repository.py:130-143 | a run from the empty store, with an explicit time and one later retry, after which the same request is a conflict |
| LedgerOutcomes.GrantsRunForTheLease | src/astrumweaver/control/repository.py:276-279 | after every claim and every renewing heartbeat the job is taken from that worker and token at t exactly when t is before now plus the lease, and by recovery exactly from then on |
| LedgerOutcomes.EventsShow | src/astrumweaver/control/repository.py:443-547 | the event that writes a row decides its status, result, error and times; a renewal moves the deadline only, and no other event touches the row |
| LedgerOutcomes.RowsAreExplained | src/astrumweaver/control/repository.py:309-548 | in every run a job row shows the request it was submitted with, the outcome of the last event that wrote it, and, while it runs, the holder and the deadline of its last grant |
| LedgerOutcomes.LastGrantDecides | src/astrumweaver/control/repository.py:402-417 | in every run a running job answers to the worker and the token of its last grant alone, for the lease from then on |
| LedgerOutcomes.WorkersAreExplained | src/astrumweaver/control/repository.py:187-307 | in every run a worker row shows its first and its last registration, what was last said of its state, when it was last heard from and the last word on every metadata key |
| LedgerOutcomes.ClaimersAreHeard | src/astrumweaver/control/repository.py:363-371 | a claim is accepted only from a worker whose last word was ONLINE and that was heard from within the time to live |
| LedgerOutcomes.OfflineStaysOffline | src/astrumweaver/control/repository.py:259-262 | an offline worker stays offline and claims nothing, whatever its heartbeats ask for, until it registers or its state is set |
| LedgerOutcomes.GpusAreExclusive | src/astrumweaver/control/repository.py:172-185 | two workers that are not offline, or still run jobs, declare no common GPU |
| LedgerOutcomes.RegistersExactly | src/astrumweaver/control/repository.py:187-216 | a registration is refused exactly for a bad record, while jobs run on other hardware or over the new limit, or while another worker has one of the GPUs in hand |
| LedgerOutcomes.OwnersComeBack | src/astrumweaver/control/repository.py:172-246 | a worker that has its GPUs in hand may always switch its state and register again |
| InMemory.InMemoryControlRepository.constructor | src/astrumweaver/control/repository.py:149-160 | a new repository is empty and consistent |
| InMemory.InMemoryControlRepository.ActiveJobCount | src/astrumweaver/control/repository.py:165-170 | the loop counts the running jobs assigned to a worker |
| InMemory.InMemoryControlRepository.GpuConflict | src/astrumweaver/control/repository.py:172-185 | true exactly when another owning worker shares a requested GPU |
| InMemory.InMemoryControlRepository.RegisterWorker | src/astrumweaver/control/repository.py:187-216 | succeeds exactly when the register event is enabled and then has its effect; a conflict changes nothing |
| InMemory.InMemoryControlRepository.SetWorkerState | src/astrumweaver/control/repository.py:225-246 | refines the set-state event, with the missing worker and the GPU conflict told apart |
| InMemory.InMemoryControlRepository.HeartbeatWorker | src/astrumweaver/control/repository.py:248-292 | refines the heartbeat event: the named lease then runs for the configured time from now, the worker counts as heard from now, offline is not left, and each error case changes nothing |
| InMemory.InMemoryControlRepository.ExpireStaleWorkers | src/astrumweaver/control/repository.py:294-307 | takes exactly the workers offline that are not and were heard from longer ago than the time to live, and returns their rows in dictionary order |
| InMemory.InMemoryControlRepository.SubmitJob | src/astrumweaver/control/repository.py:309-345 | a new job, the job that holds the key, or a conflict, exactly as the outcome of submitting says |
| InMemory.InMemoryControlRepository.SelectJob | src/astrumweaver/control/repository.py:372-383 | the selected job is eligible and first by priority and sequence; none only if nothing is eligible |
| InMemory.InMemoryControlRepository.ClaimNextJob | src/astrumweaver/control/repository.py:358-400 | claims the one eligible job of highest priority and, among those, smallest number, under a lease that ends the configured time from now; none exactly when a gate is closed or nothing is eligible; a stale worker is only marked offline |
| InMemory.InMemoryControlRepository.CompleteJob | src/astrumweaver/control/repository.py:429-458 | accepted exactly for the lease holder; the job then has succeeded with this result, no error and no holder, and one slot is released |
| InMemory.InMemoryControlRepository.FailJob | src/astrumweaver/control/repository.py:460-490 | accepted exactly for the lease holder; requeued at once exactly when retryable with attempts left, failed otherwise, with the message and that verdict |
| InMemory.InMemoryControlRepository.CancelJob | src/astrumweaver/control/repository.py:492-515 | cancels any job that is not terminal, now, and returns terminal ones unchanged |
| InMemory.InMemoryControlRepository.RecoverExpiredJobs | src/astrumweaver/control/repository.py:517-548 | exactly the expired jobs end, each requeued when attempts remain and failed otherwise, for an expired lease; each counter falls by its number of them, nothing else changes |
| InMemory.UniqueFirst | src/astrumweaver/control/repository.py:382-383 | numbers are distinct, so the first job by priority and number is strictly first |
| Postgres.SelectsByFilter | src/astrumweaver/control/postgres.py:630-687 | a queued and available row is selected by the claim statement exactly when the stored-form filter accepts it, if its minima fit 32 bits |
| Postgres.SelectsFirst | src/astrumweaver/control/postgres.py:630-687 | the row a claim takes has the highest priority of the eligible rows nobody has locked, and is the oldest of that priority |
| PostgresInvariant.StatementKeepsInv | src/astrumweaver/control/postgres.py:211-500 | every statement of every transaction keeps what the transaction has established so far under its locks |
| PostgresCommit.CommitIsEvent | src/astrumweaver/control/postgres.py:275-978 | at commit, whatever ran in between, a transaction's writes are one enabled ledger event of the present tables |
| PostgresCommit.CommitFootprint | src/astrumweaver/control/postgres.py:211-247 | a commit changes ownership and rows only where it holds the matching locks |
| PostgresCommit.TxStable | src/astrumweaver/control/postgres.py:249-273 | what a transaction has checked survives every commit by the others, even when advisory keys collide |
| PostgresRuns.StepKeepsInv | src/astrumweaver/control/postgres.py:140-152 | every step of the interleaved system keeps the invariant of tables, locks and open transactions |
| PostgresRuns.InterleavingsAreSafe | src/astrumweaver/control/postgres.py:211-500 | in every interleaving no two workers that are not offline or still run jobs declare the same GPU, every counter is the number of jobs running there and within its limit, running jobs fit |
| PostgresRuns.Serializable | src/astrumweaver/control/postgres.py:140-152 | every interleaving reaches the tables that replaying its commits one at a time reaches |
| PostgresRuns.ClaimsAreSound | src/astrumweaver/control/postgres.py:605-744 | a claim commits only a job that is queued, due, with attempts left and matching at that moment, for an online worker heard from in time and with room, that no other transaction holds; the lease it leaves ends the configured time from now |
| PostgresRuns.CommittedGrants | src/astrumweaver/control/postgres.py:449-460 | in the tables a committed claim or renewal leaves, the job answers to that worker and token until the configured time from now and to recovery from then on |
| PostgresRuns.InterleavingsAreExplained | src/astrumweaver/control/postgres.py:275-978 | in every interleaving each job row and each worker row is explained by the events committed, in the order of their commits |
| PostgresRuns.OfflineMeansStale | src/astrumweaver/control/postgres.py:502-517 | a bulk expiry takes only workers offline that are past their time to live when it commits; a claim goes by the row it read first |
| PostgresExamples.FreshWorkerExpelled | src/astrumweaver/control/postgres.py:605-626 | whenever a claim reads a stale worker whose heartbeat commits before the claim does, the worker ends up offline although it was heard from just now |
| PostgresRuns.FencingAcrossTransactions | src/astrumweaver/control/postgres.py:747-762 | fencing holds across processes and interleavings |
| PostgresRuns.SubmissionsAnswer | src/astrumweaver/control/postgres.py:519-593 | whatever other submissions of the same key do between its statements, a submission answers what submitting at that moment would do, and after a conflicting insert the second lookup always finds a job |
| PostgresRuns.OneInsertPerKey | src/astrumweaver/control/postgres.py:545-577 | of two open submissions with one idempotency key at most one is about to insert |
| PostgresLocks.OnlyNextBlocks | src/astrumweaver/control/postgres.py:219-247 | a statement takes no lock but the one it waits for and rows that skip-locked found free |
| PostgresLocks.RunKeepsShape | src/astrumweaver/control/postgres.py:428-464 | in every reachable state the locks a transaction holds are those of the phase it has reached |
| PostgresLocks.RisingRank | src/astrumweaver/control/postgres.py:764-777 | every transaction but the bulk expiry waits only for a lock above all it holds: identity, sorted GPU keys, job row, worker row |
| PostgresLocks.WaitCyclesAreExpiries | src/astrumweaver/control/postgres.py:502-517 | a cycle of waiting transactions consists of bulk expiries only, whatever the interleaving |
| PostgresLocks.ExpiriesCanDeadlock | src/astrumweaver/control/postgres.py:502-517 | from any state with two free stale workers and two expiries just begun, the expiries can each mark one and wait for the other |
| PostgresExamples.ExpiriesDeadlockRun | src/astrumweaver/control/postgres.py:502-517 | a run from the empty database in which two workers enroll, go stale, and two expiries wait for each other |
| PostgresLocks.SomeoneCanProceed | src/astrumweaver/control/postgres.py:219-247 | without bulk expiries, following the waits from any transaction ends at one that can go on |
| Supervision.LatchedForever | src/astrumweaver/worker/supervision.py:57-82 | once failed or closed, never available again, whatever probes return later |
| Supervision.RunExplained | src/astrumweaver/worker/supervision.py:84-116 | in every run the health lease comes from one READY probe answered within its budget |
| Supervision.AvailabilityHasEvidence | src/astrumweaver/worker/supervision.py:57-62 | available at t means some probe started at s answered READY in budget and t is before s plus interval plus timeout |
| Supervision.AvailableExactly | src/astrumweaver/worker/supervision.py:57-116 | in every run the supervisor is available at t exactly when no step was fatal, every answer was READY, in budget and before the lease so far was over, and t is before the start of the last answered probe plus interval plus timeout |
| Supervision.FatalForGood | src/astrumweaver/worker/supervision.py:98-116 | an answer that is not READY or out of budget, a timed out or raising probe, an ended monitor and a close leave it unavailable in every continuation |
| Supervision.ReadyExtends | src/astrumweaver/worker/supervision.py:98-110 | a READY answer in budget to an open gate makes it available at every time before the start of its probe plus interval plus timeout |
| Supervision.FailedExactly | src/astrumweaver/worker/supervision.py:76-116 | before its close it has failed exactly when a step was fatal, an answer did not count, or someone read a lease that was over |
| Supervision.FirstCauseStays | src/astrumweaver/worker/supervision.py:76-82 | the first failure names its cause and no later one replaces it |
| Supervision.RuntimeHealthSupervisor.constructor | src/astrumweaver/worker/supervision.py:28-55 | a new supervisor is fresh: nothing valid, nothing failed |
| Supervision.RuntimeHealthSupervisor.Fail | src/astrumweaver/worker/supervision.py:76-82 | latches the first failure and does nothing after a failure or close |
| Supervision.RuntimeHealthSupervisor.ReadAvailable | src/astrumweaver/worker/supervision.py:57-62 | reading availability latches a lapsed lease |
| Supervision.RuntimeHealthSupervisor.BeginProbe | src/astrumweaver/worker/supervision.py:90-98 | a probe starts exactly when the gate is open |
| Supervision.RuntimeHealthSupervisor.EndProbe | src/astrumweaver/worker/supervision.py:98-116 | the answer is judged only behind the open gate: late, invalid and not READY ones fail the supervisor, and a late success clears nothing |
| Supervision.RuntimeHealthSupervisor.AbandonProbe | src/astrumweaver/worker/supervision.py:111-116 | a timed-out or raising probe fails the supervisor |
| Supervision.RuntimeHealthSupervisor.WaitedTooLong | src/astrumweaver/worker/supervision.py:84-113 | waiting too long for another probe fails the supervisor |
| Supervision.RuntimeHealthSupervisor.Observe | src/astrumweaver/worker/supervision.py:57-71 | a reader of availability gets the answer at that time, and a stale lease latches |
| Supervision.RuntimeHealthSupervisor.CancelProbe | src/astrumweaver/worker/supervision.py:124-137 | a cancelled probe frees the lock and judges nothing |
| Supervision.RuntimeHealthSupervisor.MonitorChecked | src/astrumweaver/worker/supervision.py:126-129 | the monitor is initialized once its first check came back |
| Supervision.RuntimeHealthSupervisor.MonitorEnded | src/astrumweaver/worker/supervision.py:124-137 | a monitor that ends unclosed fails the supervisor |
| Supervision.RuntimeHealthSupervisor.Shut | src/astrumweaver/worker/supervision.py:139-144 | closing ends availability |
| Lifecycle.TruthfulUnlessRelapse | src/astrumweaver/runtime/lifecycle.py:30-100 | the released flag stays truthful through a call exactly when the call is not a failed restart of a released runtime |
| Lifecycle.AwaitedExactly | src/astrumweaver/runtime/lifecycle.py:53-65 | polling returns exactly when some answer is ready before any raise, any failure and the deadline |
| Lifecycle.ReadyExactly | src/astrumweaver/runtime/lifecycle.py:30-65 | when a readiness call returns, in terms of the runtime's answers alone, and what it leaves owned and released |
| Lifecycle.StoppedExactly | src/astrumweaver/runtime/lifecycle.py:67-100 | when a stop returns, in the same terms; then no process is left, and what was to be released is |
| Lifecycle.FlagStaysTruthful | src/astrumweaver/runtime/lifecycle.py:30-119 | over any sequence of calls without such a restart a released runtime owns nothing |
| Lifecycle.ReadySafeExactly | src/astrumweaver/runtime/lifecycle.py:30-65 | given the first health answer, a readiness call keeps the flag truthful whatever follows exactly when it does not start a released runtime |
| Lifecycle.ReadySafeUnlessReleased | src/astrumweaver/runtime/lifecycle.py:30-65 | whatever the runtime answers, a readiness call keeps the flag truthful exactly when the manager has not released it |
| Lifecycle.GuardedRunsAreTruthful | src/astrumweaver/runtime/lifecycle.py:30-119 | over any sequence of calls that keeps to that guard the flag is truthful, and a shutdown that returns leaves nothing owned |
| Lifecycle.ShutdownOwnsNothing | src/astrumweaver/runtime/lifecycle.py:102-119 | a shutdown that returns leaves no process and no resource; one that raises leaves the flag down |
| Lifecycle.RelapseLeaksTheRuntime | src/astrumweaver/runtime/lifecycle.py:50-64 | a run in which the flag stays up over a started process and the next shutdown skips it |
| Lifecycle.RuntimeLifecycleManager.EnsureReadyNow | src/astrumweaver/runtime/lifecycle.py:30-65 | the polling loop's verdict and the flag it leaves |
| Lifecycle.RuntimeLifecycleManager.EnsureStoppedNow | src/astrumweaver/runtime/lifecycle.py:67-100 | stop, polling and the optional release, with every error exit |
| Lifecycle.RuntimeLifecycleManager.ShutdownOwnedNow | src/astrumweaver/runtime/lifecycle.py:102-119 | stops and releases once and says so only when both succeeded |
| WorkerLoopSteps.StepKeepsInv | src/astrumweaver/worker/runtime.py:270-495 | every step of the loop, of drain, of signals, probes and the executor keeps the invariant and justifies what it logs |
| WorkerLoopSteps.RunsKeepInv | src/astrumweaver/worker/runtime.py:328-389 | every reachable state of every interleaving satisfies the invariant |
| WorkerLoopSafety.ClaimsOnlyWhileReady | src/astrumweaver/worker/runtime.py:188-197 | a claim is sent only before any drain intent, under an unrevoked and unexpired ONLINE acknowledgement and, if managed, a recent READY probe |
| WorkerLoopPace.ReadyWorkerClaims | src/astrumweaver/worker/runtime.py:341-357 | an enrolled Worker never told to drain, under a live ONLINE acknowledgement and a healthy runtime, sends a claim with the next two turns of its loop, unless a heartbeat is due first |
| WorkerLoopSafety.HeartbeatsAsk | src/astrumweaver/worker/runtime.py:287-306 | over every run a heartbeat asks for DRAINING or nothing, and for DRAINING exactly when a drain intent, or the supervisor's failure, precedes it under a last acknowledgement that is unexpired, unrevoked and not OFFLINE |
| WorkerLoopPace.DrainIsReported | src/astrumweaver/worker/runtime.py:391-397 | a drain that gets the lock sends one heartbeat exactly when Control counts the Worker as enrolled and it is not stopping |
| WorkerLoopPace.ResumeOnPace | src/astrumweaver/worker/runtime.py:287-319 | the heartbeat deadline moves only when a heartbeat ends or a call is lost, never with a claim or a terminal write; a heartbeat is sent exactly when due where the loop looks, or on enrolment of a Worker told to drain |
| WorkerLoopPace.DrainMovesDeadline | src/astrumweaver/worker/runtime.py:287-313 | beside the loop only the end of a drain's heartbeat moves the deadline, and nothing but a drain sends one |
| WorkerLoopSafety.OneExecution | src/astrumweaver/worker/runtime.py:399-414 | at most one executor task lives and no attempt starts twice, also under cancellation during cleanup |
| WorkerLoopSafety.OneTerminalWrite | src/astrumweaver/worker/runtime.py:446-465 | an attempt writes at most one result, after its task ended, with that ending's verdict, under unexpired authority |
| WorkerLoopSafety.FailuresAreRechecked | src/astrumweaver/worker/runtime.py:427-442 | a managed Worker reports a raised execution only after a probe that started after it saw the execution raise was answered READY |
| WorkerLoopPace.ConflictIsAsked | src/astrumweaver/worker/runtime.py:466-475 | a refused heartbeat or terminal write makes the Worker ask about the job exactly when the refusal is a conflict |
| WorkerLoopPace.CancelledIsOver | src/astrumweaver/worker/runtime.py:468-478 | a job that Control says was cancelled ends its attempt quietly; otherwise the conflict counts as a lost call |
| WorkerLoopPace.RuntimeLossPauses | src/astrumweaver/worker/runtime.py:367-370 | losing the runtime drops the attempt without a word to Control and never ends the Worker |
| WorkerLoopPace.CancelledExecutionEnds | src/astrumweaver/worker/runtime.py:424-430 | an execution that was cancelled ends the Worker without a result and with its authority dropped |
| WorkerLoopSafety.NoBeatAfterSettled | src/astrumweaver/worker/runtime.py:287-313 | no heartbeat, not even a waiting drain's, presents the token of an acknowledged terminal write |
| WorkerLoopSafety.LostReplyAllowsBeat | src/astrumweaver/worker/runtime.py:466-495 | a run of a managed Worker in which the write's reply is lost and a drain heartbeat then presents the same token |
| WorkerLoopTokens.StepMoves | src/astrumweaver/worker/runtime.py:287-313 | every heartbeat of a step carries the attempt that was active before it, and the active attempt is only kept, forgotten or newly granted |
| WorkerLoopTokens.NeverShown | src/astrumweaver/worker/runtime.py:466-495 | a token that is no longer active, or whose cleanup runs in a Worker that is unenrolled or stopping, is presented by no heartbeat of any continuation |
| WorkerLoopTokens.TokenLingersExactly | src/astrumweaver/worker/runtime.py:446-495 | after the terminal write some continuation presents its token in a heartbeat if and only if the write was not acknowledged, the Worker is managed or the reply is a conflict, and the Worker is enrolled and not stopping |
| WorkerLoopSafety.ReleaseComesLast | src/astrumweaver/worker/runtime.py:376-389 | nothing is sent after the OFFLINE release, no execution is left, Control counts the Worker as enrolled, and a managed Worker has stopped its runtime before it |
| WorkerLoopPace.ReleaseIsSent | src/astrumweaver/worker/runtime.py:384-389 | leaving the loop the Worker releases itself exactly when Control counts it as enrolled |
| WorkerLoopPace.ReleaseEnds | src/astrumweaver/worker/runtime.py:386-389 | whatever Control answers to the release, the Worker is done and no longer enrolled |
| WorkerLoopSafety.LeavingOwnsNothing | src/astrumweaver/worker/runtime.py:379-389 | when the release is about to be sent the owned runtime holds no process and no resource |
| WorkerLoopSafety.EnrollsOnce | src/astrumweaver/worker/runtime.py:270-285 | the Worker registers at most once in a run, a managed one only after its runtime answered a probe READY |
| WorkerObject.WorkerRuntime.constructor | src/astrumweaver/worker/runtime.py:145-177 | a new Worker is in the loop's initial state |
| WorkerObject.WorkerRuntime.ReadReady | src/astrumweaver/worker/runtime.py:188-201 | readiness as the loop reads it, latching a stale health lease |
| WorkerObject.WorkerRuntime.RequestDrain | src/astrumweaver/worker/runtime.py:229-232 | drain intent is set and never cleared |
| WorkerObject.WorkerRuntime.RequestStop | src/astrumweaver/worker/runtime.py:234-236 | stopping implies draining |
| WorkerObject.WorkerRuntime.ControlFailed | src/astrumweaver/worker/runtime.py:238-245 | authority is lost, and enrolment on 401, 403 and 404 |
| WorkerObject.WorkerRuntime.HeartbeatReplied | src/astrumweaver/worker/runtime.py:247-313 | an acknowledgement extends authority from the time its request was sent; anything else loses it |
| WorkerObject.WorkerRuntime.SendHeartbeat | src/astrumweaver/worker/runtime.py:287-306 | the heartbeat carries the active attempt and asks for DRAINING only while draining under live authority that is not OFFLINE, for nothing otherwise |
| WorkerObject.WorkerRuntime.LeaveLoop | src/astrumweaver/worker/runtime.py:376-379 | leaving the loop drops authority and closes the supervisor |
| WorkerObject.WorkerRuntime.ClaimUnderLock | src/astrumweaver/worker/runtime.py:347-357 | under the control lock: around the loop when not ready, a heartbeat first when one has come due, otherwise the claim |
| SetupApply.ValidateApproval | src/astrumweaver/setup/apply.py:131-167 | accepts exactly the approvals that match the digest and every need of the plan |
| SetupApply.Rollback | src/astrumweaver/setup/apply.py:170-204 | makes exactly the undo calls of the specification in order, continuing after a failed one |
| SetupApply.ApplyPlan | src/astrumweaver/setup/apply.py:207-332 | without a covering approval there is no report and the target is unchanged; otherwise the outcome, results and target are those of the specification |
| SetupApply.ApplyCounting | src/astrumweaver/setup/apply.py:207-232 | applying makes no call of the driver, not even an inspection, exactly when the approval does not cover the plan or the plan is empty |
| SetupApply.UndosAreReversed | src/astrumweaver/setup/apply.py:177-179 | the undo calls are exactly the reverse of the changed reversible applications, each once |
| SetupApply.ReportMatches | src/astrumweaver/setup/apply.py:232-332 | the report names every action up to the first failure once, and what it calls applied is what may be undone |
| SetupApply.ResultsTell | src/astrumweaver/setup/apply.py:232-303 | each result is what the driver answered for that action on the target the actions before it left: skipped, applied, failed or blocked |
| SetupApply.UndosReported | src/astrumweaver/setup/apply.py:170-204 | each undo call is reported as rolled back, with the change the driver answered, or as failed exactly when the driver raised |
| SetupApply.UndoesOnlyWhenAsked | src/astrumweaver/setup/apply.py:207-332 | nothing is undone unless a failed pass was to be rolled back, and then every undo call is reported |
| SetupApply.UnwindsToStart | src/astrumweaver/setup/apply.py:170-204 | for a lawful driver with undoable changes, rollback after any forward pass leads back to the start |
| SetupApply.FailureRestores | src/astrumweaver/setup/apply.py:207-332 | a failed application with rollback restores the starting target when every change it applied can be undone |
| SetupApply.ReversiblePlanRestores | src/astrumweaver/setup/apply.py:170-204 | whatever lawful driver applies a plan whose actions but the last are reversible, a failure restores the starting target |
| SetupApply.RestoresExactly | src/astrumweaver/setup/apply.py:170-204 | a plan is restored by every failure of every lawful driver if and only if all its actions but the last are reversible |
| SetupApply.IrreversibleStays | src/astrumweaver/setup/planner.py:117-126 | a lawful driver and a failing plan whose irreversible directory stays behind |
| SetupApply.OutcomeKeeps | src/astrumweaver/setup/apply.py:207-332 | what every driver call keeps, the whole application keeps |
| Planner.ActionBuilder.Add | src/astrumweaver/setup/planner.py:35-58 | appends one action numbered by the new length |
| Planner.IdsDiffer | src/astrumweaver/setup/planner.py:46-50 | action identities with different numbers differ, whatever their kinds |
| Planner.BuildSetupPlan | src/astrumweaver/setup/planner.py:114-274 | the plan has exactly the planned kinds in order with the directory, package, configuration or model each is about, numbered, and each action is reversible, privileged, networked and confirmed as its kind asks; none for a Worker migration outside systemd |
| Planner.ApprovalNeeded | src/astrumweaver/setup/apply.py:131-167 | an approval covers the built plan exactly when it names its digest and allows what the intent and the host call for |
| Planner.ApprovalLimits | src/astrumweaver/setup/planner.py:117-274 | what each permission an approval withholds keeps a built plan from doing, kind by kind |
| Planner.ReversibleKinds | src/astrumweaver/setup/planner.py:117-274 | exactly the driver bridge, the rendering, the stop, the reconciliation and the start of a built plan can be undone |
| Planner.MigrationOrder | src/astrumweaver/setup/planner.py:215-274 | stop, reconcile, preflight, start and health check follow each other, each once, after all rendering |
| Planner.ActivationOrder | src/astrumweaver/setup/planner.py:114-274 | every plan goes through directories, packages, driver bridge, configuration, model, Worker migration, preflight, start and health check in this order, only the first two repeatedly |
| Planner.UndoneOnce | src/astrumweaver/setup/planner.py:35-58 | in a numbered plan no action identity is undone twice |
| Planner.PlannedRestores | src/astrumweaver/setup/planner.py:114-274 | a built plan is restored by every failure of a lawful driver whose irreversible actions report no change |
| Planner.PlannedDoesNotAlwaysRestore | src/astrumweaver/setup/planner.py:117-126 | no built plan is restored by every failure of every lawful driver |
| Systemd.ReconcileHonest | src/astrumweaver/setup/systemd.py:1207-1292 | reconciliation, failing anywhere and restoring or not, leaves the restart flag up only if the loaded unit is the disk unit |
| Systemd.RollbackReconcileHonest | src/astrumweaver/setup/systemd.py:1400-1433 | so does its rollback |
| Systemd.RollbackStopHonest | src/astrumweaver/setup/systemd.py:1435-1479 | a restart is recorded only for an agreed smoke contract with the flag up |
| Systemd.RestartsAreSafe | src/astrumweaver/setup/systemd.py:1435-1479 | for every plan and every fault pattern, a restoring start runs smoke config and smoke unit with the loaded unit equal to the disk unit |
| Systemd.EveryStartRunsTheDisk | src/astrumweaver/setup/systemd.py:1294-1303 | on a live host no start, forward or restoring, runs a loaded unit that differs from the disk |
| Systemd.ReconcileRewrites | src/astrumweaver/setup/systemd.py:575-649 | a unit that needs reconciling is always rewritten, so the reload is never skipped |
| SystemdRestore.RestoreUndoesWrites | src/astrumweaver/setup/systemd.py:1352-1361 | restoring completed writes gives back every file but the one torn by the failing write |
| SystemdRestore.RenderRaisesClean | src/astrumweaver/setup/systemd.py:1144-1172 | a raising rendering leaves the files unchanged exactly when its failing write had not replaced its file |
| SystemdRestore.RenderRollsBack | src/astrumweaver/setup/systemd.py:1395-1398 | the rollback of a completed rendering restores the files |
| SystemdRestore.ReconcileRollsBack | src/astrumweaver/setup/systemd.py:1400-1433 | the rollback of a reconciliation restores config, unit, loaded unit and flag and leaves the service stopped |
| SystemdRestore.ReconcileRaisesClean | src/astrumweaver/setup/systemd.py:1258-1281 | a reconciliation that raises restores what it changed |
| SystemdMigration.PlannedMigration | src/astrumweaver/setup/planner.py:114-274 | every Worker migration the planner builds passes through the stages before the stop, after it and after the reconciliation |
| SystemdMigration.StepAdvances | src/astrumweaver/setup/systemd.py:1144-1292 | inspecting and applying any action keeps a stopped or running smoke Worker at its stage or takes it to the next, also when the call raises, unless the stop is torn |
| SystemdMigration.Rewind | src/astrumweaver/setup/apply.py:170-204 | from any stage, undoing whatever had been applied without further failures gives the running smoke Worker back |
| SystemdMigration.OneFailureRestores | src/astrumweaver/setup/apply.py:207-332 | a migration of a running smoke Worker that fails anywhere, a refused preflight or a failed health check included, gives back config, unit, loaded unit and the running service if and only if it is not the stop that failed after stopping |
| SystemdMigration.ForwardArrives | src/astrumweaver/setup/apply.py:232-303 | a pass in which nothing fails leaves both files rendered, the rendered unit loaded, the flag up and the Worker started |
| SystemdMigration.MigratesOrRestores | src/astrumweaver/setup/planner.py:215-274 | every planned migration of a running smoke Worker either arrives there or restores the Worker, with that one exception |
| SystemdFiles.RenderReverts | src/astrumweaver/setup/systemd.py:1144-1172 | what a completed rendering records leads back, without failures, to the files before it |
| SystemdFiles.FailureRestoresFiles | src/astrumweaver/setup/apply.py:207-332 | whatever fails in a plan that renders once, the rollback gives every rendered file back if and only if the failing call is not a write that had replaced its file |
| SystemdFiles.PlannedRenderable | src/astrumweaver/setup/planner.py:160-178 | every built plan renders at most once and can undo it |
| SystemdStarts.FailureStopsService | src/astrumweaver/setup/systemd.py:1481-1489 | a plan that fails on a host whose service is stopped leaves it running after a rollback without failures exactly when the failing call is a start that had come up and nothing undone stops it |
| SystemdStarts.PlannedService | src/astrumweaver/setup/planner.py:236-274 | a built plan on such a host goes through and leaves the service running, or fails and leaves it stopped, unless the start itself failed after coming up; without a Worker migration that is exactly when it is left running |
| SystemdStarts.RollbackReportsStarts | src/astrumweaver/setup/systemd.py:1481-1489 | every start that is undone is reported as rolled back and changed |
| SystemdStarts.PassLeavesRunning | src/astrumweaver/setup/systemd.py:1294-1303 | a pass that goes through leaves the service running if nothing after its start stops it |
| SystemdGuards.OnlyPermittedRewrites | src/astrumweaver/setup/systemd.py:889-1069 | without a reviewed reconciliation of a smoke Worker, or of a runtime with the planned provider and manifest, no plan changes config, unit or loaded unit, whatever fails |
| SystemdGuards.MigratedIsLeftAlone | src/astrumweaver/setup/systemd.py:889-1069 | migrating a Worker that is migrated and running changes nothing of it, whatever the plan asks for and whatever fails |
| SystemdExamples.StopMayStay | src/astrumweaver/setup/systemd.py:1189-1205 | on the installed smoke Worker a stop failing before its effect is followed by a complete restoration, one failing after it is not |
| SystemdExamples.StartMayStay | src/astrumweaver/setup/systemd.py:1294-1303 | on a stopped service a start failing before its effect leaves it stopped, one failing after it running |
| SystemdExamples.TornWriteStays | src/astrumweaver/setup/systemd.py:1157-1172 | a rendering whose first write fails after replacing the file leaves that file behind |
| SystemdDriver.SystemdSetupDriver.InstallFiles | src/astrumweaver/setup/systemd.py:1240-1255 | replaces the files and reloads in order up to the first failure |
| SystemdDriver.SystemdSetupDriver.ReconcileWorkerExecution | src/astrumweaver/setup/systemd.py:1207-1292 | the flag, the attempt and the restoring path as the driver function says |
| SystemdDriver.SystemdSetupDriver.UndoReconcile | src/astrumweaver/setup/systemd.py:1400-1433 | flag down, stop, replace, reload, flag up, as the driver function says |
| SystemdDriver.SystemdSetupDriver.StopWorker | src/astrumweaver/setup/systemd.py:1189-1205 | stops the service only when the inspection asks for it |
| SystemdDriver.SystemdSetupDriver.UndoStop | src/astrumweaver/setup/systemd.py:1435-1479 | restarts the service only behind every guard |
| SystemdDriver.SystemdSetupDriver.RenderFiles | src/astrumweaver/setup/systemd.py:1157-1166 | writes and records the files that differ, up to the first failure |
| SystemdDriver.SystemdSetupDriver.RestoreFiles | src/astrumweaver/setup/systemd.py:1352-1361 | restores recorded files in reverse and refuses a file changed since |
| SystemdDriver.SystemdSetupDriver.RenderConfiguration | src/astrumweaver/setup/systemd.py:1144-1172 | rendering with its undo data, or the restoration of a partial one |
| UnitMigration.ParsedIsPrinted | src/astrumweaver/setup/migration.py:450-561 | a recognized unit text is exactly the print of its unit, whose fields stay on one line |
| UnitMigration.AnchorFound | src/astrumweaver/setup/migration.py:578-589 | an environment line counted once is replaced where the unit has it |
| UnitMigration.ReplaceKeepsHead | src/astrumweaver/setup/migration.py:590-591 | replacing the start line, counted once, leaves everything up to the user line alone |
| UnitMigration.RenderIsRecordUpdate | src/astrumweaver/setup/migration.py:564-600 | whenever rendering returns, the patched text is the print of the same unit in runtime mode with the driver bridge, and rendering it again is the identity |
| UnitRoundTrip.ParsedIsGood | src/astrumweaver/setup/migration.py:481-512 | the fields of a recognized unit are ones the parser accepts again |
| UnitRoundTrip.ParsesExactly | src/astrumweaver/setup/migration.py:450-561 | for a canonical template, a text is recognized as a unit exactly when the unit is well formed and the text is its print |
| UnitPatch.AnchorReplaced | src/astrumweaver/setup/migration.py:578-589 | the first replacement adds the driver line and nothing else |
| UnitPatch.StartReplaced | src/astrumweaver/setup/migration.py:590-591 | the second replacement adds the manifest argument and nothing else, also after the driver line was inserted |
| UnitPatch.RendersExactly | src/astrumweaver/setup/migration.py:564-600 | a recognized unit is patched exactly when it needs nothing, or its environment line and, if smoke, its start line occur once |
| UnitTemplate.InstalledTemplate | src/astrumweaver/setup/migration.py:21-70 | the installed template is canonical: no fixed line starts a directive the parser looks for |
| UnitTemplate.InstalledUnitsParse | src/astrumweaver/setup/migration.py:450-561 | parsing and printing installed units are inverse |
| UnitTemplate.InstalledUnitsRender | src/astrumweaver/setup/migration.py:564-600 | when an installed unit is patched, and that the result is the same unit in runtime mode with the driver bridge |
| UnitCounts.InstalledAnchors | src/astrumweaver/setup/migration.py:578-584 | the environment line occurs once in an installed unit, and three times when its user ends with it |
| UnitCounts.InstalledStarts | src/astrumweaver/setup/migration.py:568-577 | the start line of an installed smoke unit occurs once, and twice more for every time its user contains it |
| UnitCounts.InstalledUnitsPatch | src/astrumweaver/setup/migration.py:564-600 | an installed unit without the bridge is patched exactly when its user neither ends with the environment line nor, in a smoke unit, contains the start line |
| UnitCounts.SmokeIsPatched | src/astrumweaver/setup/migration.py:564-600 | the smoke unit of the user astrumweaver is recognized and patched |
| UnitCounts.AmbiguousIsRefused | src/astrumweaver/setup/migration.py:578-584 | a unit whose user is spelled like the environment line is recognized and refused by the patch |
| NixString.NixReadsLiteral | src/astrumweaver/setup/first_run.py:107-110 | what Nix reads of a rendered string, character by character, without interpolation |
| NixString.NixRoundTrip | src/astrumweaver/setup/first_run.py:107-110 | the literal never interpolates and reads back unchanged exactly for strings whose control characters are newline, carriage return and tab |
| NixString.ControlIsLost | src/astrumweaver/setup/first_run.py:107-110 | any other control character comes back as its escape without the backslash |
| NixString.JsonReadsBody | src/astrumweaver/setup/first_run.py:789-803 | reading a default JSON string gives its text with adjacent surrogate halves joined |
| NixString.JsonInNixRoundTrip | src/astrumweaver/setup/first_run.py:804-815 | a JSON string inside a Nix string survives both readings exactly when it splits no surrogate pair |
| JsonText.ReadPrinted | src/astrumweaver/setup/first_run.py:789-803 | reading the compact JSON text of a value gives the value back, pairs joined, and stops where it ends |
| JsonText.ValueThroughNix | src/astrumweaver/setup/first_run.py:804-815 | a JSON value written into a Nix string comes back through Nix and a JSON reader exactly when no string in it splits a surrogate pair |
| JsonText.SplitPairIsJoined | src/astrumweaver/setup/first_run.py:804-815 | two surrogate halves come back as the one code point they spell |

## Left out

- SystemdMigration.OneFailureRestores: directories, packages, models, the driver bridge, the preflight and the health check are an arbitrary driver beside the Worker; what they leave behind is not part of what is restored.
- PostgresRuns.SubmissionsAnswer: a submission that finds a row ends without a commit step, since it writes nothing; its answer is the one stated while it holds the row.
- Postgres.SelectsByFilter: a claim statement that raises on an out-of-range minimum is not a step of the transaction model, which selects by eligibility.
- Planner.BuildSetupPlan: a payload is one name or text, the packages are given in sorted order, and descriptions, the digest and plan metadata are not stated.
- ClaimFilter.FilterAgreesWithMatcher: an out-of-range cast raises whatever order PostgreSQL evaluates the conditions in; short-circuit orders that would avoid it are not modelled.
- The in-memory, supervisor, lifecycle, Worker and systemd code is modelled as classes; the PostgreSQL repository and the interleavings of the Worker loop are step machines over values, one step per statement or per await.
- A segment between two awaits reads the clock once; the original may see it advance inside a segment.
- asyncio's lock fairness, the wake-up order of waiting drains and the executor's own behaviour.
- list_jobs, check_storage, migrations, JSONB encoding, connection handling and the HTTP, authentication and daemon layers.
- Trimming of strings, time zones, UUID generation and sha256; the lock key is an arbitrary function.
- `systemctl enable` besides the start it performs; external changes to units or files during a plan.
- worker.toml parsing and rendering: its execution mode is an arbitrary function of the text.
- JSON numbers as numbers (a number is its token), non-finite floats, and white space between JSON tokens.
- The preview, dry-run and explanation of plans, progress observers, plan digests and serialization.
- Runtime providers, GPU mapping, discovery, the terminal interface, first-run installers, validation tools and Worker mode files.
