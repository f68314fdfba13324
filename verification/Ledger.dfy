/** The control plane as one atomic event system.  A `Store` is what is durable:
    worker rows, job rows and the set of lease tokens ever handed out.  An `Event`
    is one successful transition; `Enabled` says when the control plane accepts it
    and `Apply` what it does.  Both repositories refine this module: every call of
    the in-memory one and every commit of the PostgreSQL one is a sequence of
    enabled events. */
module Ledger {
  import opened Contracts
  import opened Scheduling

  datatype Store = Store(workers: map<string, WorkerRecord>, jobs: map<string, JobRecord>, tokens: set<string>)

  datatype Event =
    | Register(registration: WorkerRegistration, now: int)
    | SetState(worker: string, state: WorkerState, now: int)
    | Heartbeat(worker: string, beat: WorkerHeartbeat, now: int)
    | MarkOffline(stale: set<string>)
    | Submit(job: string, submission: JobSubmission, sequence: int, now: int)
    | Claim(worker: string, job: string, token: string, now: int)
    | Complete(job: string, result: Opaque, worker: string, token: string, now: int)
    | Fail(job: string, message: Opaque, retryable: bool, worker: string, token: string, now: int)
    | Cancel(job: string, now: int)
    | Recover(job: string, now: int)

  // ---------------------------------------------------------------- queries

  /** A worker reserves its GPUs while it is not offline or still runs jobs. */
  predicate Owns(r: WorkerRecord) {
    !r.state.Offline? || r.activeJobs > 0
  }

  /** No other worker that owns its GPUs shares one with `gpus`. */
  ghost predicate NoOverlap(workers: map<string, WorkerRecord>, self: string, gpus: set<string>) {
    forall w :: w in workers && w != self && Owns(workers[w]) ==> Gpus(workers[w].spec) !! gpus
  }

  predicate RunsOn(job: JobRecord, worker: string) {
    job.status.Running? && job.assignedWorker == Some(worker)
  }

  function RunningOn(jobs: map<string, JobRecord>, worker: string): set<string> {
    set j | j in jobs && RunsOn(jobs[j], worker)
  }

  function RunningCount(jobs: map<string, JobRecord>, worker: string): nat {
    |RunningOn(jobs, worker)|
  }

  predicate Eligible(job: JobRecord, spec: WorkerSpec, now: int) {
    && job.status.Queued?
    && job.availableAt <= now
    && job.attempts < job.maxAttempts
    && job.capability in spec.capabilities
    && WorkerMatches(spec, job.requirements)
  }

  /** Claim order: higher priority first, then the older job. */
  predicate ClaimedBefore(a: JobRecord, b: JobRecord) {
    a.priority > b.priority || (a.priority == b.priority && a.sequence <= b.sequence)
  }

  /** The holder check every job write and lease renewal goes through. */
  predicate LeaseHeld(job: JobRecord, worker: string, token: string, now: int) {
    && job.status.Running?
    && job.assignedWorker == Some(worker)
    && token != "" && job.leaseToken == Some(token)
    && job.leaseExpiresAt.Some? && job.leaseExpiresAt.value > now
  }

  predicate Expired(job: JobRecord, now: int) {
    job.status.Running? && job.leaseExpiresAt.Some? && job.leaseExpiresAt.value <= now
  }

  // ------------------------------------------------------------ transitions

  function NewJob(id: string, sub: JobSubmission, sequence: int, now: int): JobRecord {
    JobRecord(id, sub.capability, sub.payload, sub.requirements, sub.priority, sequence, Queued, 0,
              sub.maxAttempts, sub.idempotencyKey, now,
              if sub.availableAt.Some? then sub.availableAt.value else now, now,
              None, None, None, None, None, None, None)
  }

  function Claimed(job: JobRecord, worker: string, token: string, now: int, lease: int): JobRecord {
    job.(status := Running, attempts := job.attempts + 1, assignedWorker := Some(worker),
         leaseToken := Some(token), leaseExpiresAt := Some(now + lease), startedAt := Some(now),
         finishedAt := None, updatedAt := now, error := None)
  }

  function Renewed(job: JobRecord, now: int, lease: int): JobRecord {
    job.(leaseExpiresAt := Some(now + lease), updatedAt := now)
  }

  function Unleased(job: JobRecord, now: int): JobRecord {
    job.(assignedWorker := None, leaseToken := None, leaseExpiresAt := None, updatedAt := now)
  }

  function Completed(job: JobRecord, result: Opaque, now: int): JobRecord {
    Unleased(job, now).(status := Succeeded, result := Some(result), error := None, finishedAt := Some(now))
  }

  /** A failed attempt: back to the queue when a retry is granted, failed otherwise. */
  function Retried(job: JobRecord, retry: bool, message: Opaque, now: int): JobRecord {
    Unleased(job, now).(
      status := if retry then Queued else JobStatus.Failed,
      error := Some(Failure(message, retry)),
      startedAt := if retry then None else job.startedAt,
      finishedAt := if retry then None else Some(now),
      availableAt := if retry then now else job.availableAt)
  }

  function Dropped(job: JobRecord, now: int): JobRecord {
    Unleased(job, now).(status := Cancelled, finishedAt := Some(now))
  }

  const LEASE_EXPIRED: Opaque := "worker lease expired"

  function Recovered(job: JobRecord, now: int): JobRecord {
    Retried(job, job.attempts < job.maxAttempts, LEASE_EXPIRED, now)
  }

  /** Give one unit of capacity back, never below zero, to a worker that exists. */
  function Release(workers: map<string, WorkerRecord>, worker: Option<string>): map<string, WorkerRecord> {
    if worker.Some? && worker.value in workers then
      var r := workers[worker.value];
      workers[worker.value := r.(activeJobs := if r.activeJobs - 1 < 0 then 0 else r.activeJobs - 1)]
    else workers
  }

  function MergeMetadata(kept: map<string, Opaque>, extra: map<string, Opaque>): map<string, Opaque> {
    kept + extra
  }

  function Enrolled(s: Store, reg: WorkerRegistration, now: int): WorkerRecord {
    var w := reg.spec.workerId;
    WorkerRecord(reg.spec, reg.maxConcurrency, Online, RunningCount(s.jobs, w),
                 if w in s.workers then s.workers[w].registeredAt else now, now, reg.metadata)
  }

  function Beaten(r: WorkerRecord, beat: WorkerHeartbeat, count: int, now: int): WorkerRecord {
    r.(state := if beat.state.Some? then beat.state.value else r.state, activeJobs := count,
       lastSeenAt := now, metadata := MergeMetadata(r.metadata, beat.metadata))
  }

  function AllOffline(workers: map<string, WorkerRecord>, stale: set<string>): map<string, WorkerRecord> {
    map w | w in workers :: if w in stale then workers[w].(state := Offline) else workers[w]
  }

  /** A registration is refused while jobs run under a different shape or over the new limit. */
  predicate ShapeKept(workers: map<string, WorkerRecord>, reg: WorkerRegistration) {
    var w := reg.spec.workerId;
    w in workers && workers[w].activeJobs > 0 ==>
      reg.spec == workers[w].spec && reg.maxConcurrency >= workers[w].activeJobs
  }

  /** A heartbeat may never bring an offline worker back. */
  predicate StaysReleased(r: WorkerRecord, beat: WorkerHeartbeat) {
    !(r.state.Offline? && (beat.state == Some(Online) || beat.state == Some(Draining)))
  }

  ghost predicate Enabled(cfg: Config, s: Store, e: Event) {
    match e
    case Register(reg, now) =>
      reg.Valid() && ShapeKept(s.workers, reg) && NoOverlap(s.workers, reg.spec.workerId, Gpus(reg.spec))
    case SetState(w, state, now) =>
      w in s.workers && (!state.Offline? ==> NoOverlap(s.workers, w, Gpus(s.workers[w].spec)))
    case Heartbeat(w, beat, now) =>
      && w in s.workers && StaysReleased(s.workers[w], beat)
      && (beat.Leased() ==>
            && beat.LeaseComplete() && beat.activeJobId.value in s.jobs
            && LeaseHeld(s.jobs[beat.activeJobId.value], w, beat.leaseToken.value, now))
    case MarkOffline(stale) => stale <= s.workers.Keys
    case Submit(j, sub, sequence, now) =>
      && sub.Valid() && j !in s.jobs && sequence >= 1
      && (forall i :: i in s.jobs ==> s.jobs[i].sequence != sequence)
      && (sub.idempotencyKey.Some? ==> forall i :: i in s.jobs ==> s.jobs[i].idempotencyKey != sub.idempotencyKey)
    case Claim(w, j, token, now) =>
      && w in s.workers && j in s.jobs
      && now - s.workers[w].lastSeenAt <= cfg.workerTtl
      && s.workers[w].state.Online?
      && s.workers[w].activeJobs < s.workers[w].maxConcurrency
      && Eligible(s.jobs[j], s.workers[w].spec, now)
      && token != "" && token !in s.tokens
    case Complete(j, result, w, token, now) => j in s.jobs && LeaseHeld(s.jobs[j], w, token, now)
    case Fail(j, message, retryable, w, token, now) => j in s.jobs && LeaseHeld(s.jobs[j], w, token, now)
    case Cancel(j, now) => j in s.jobs && !s.jobs[j].status.Terminal()
    case Recover(j, now) => j in s.jobs && Expired(s.jobs[j], now)
  }

  ghost function Apply(cfg: Config, s: Store, e: Event): Store
    requires Enabled(cfg, s, e)
  {
    match e
    case Register(reg, now) =>
      s.(workers := s.workers[reg.spec.workerId := Enrolled(s, reg, now)])
    case SetState(w, state, now) =>
      s.(workers := s.workers[w := s.workers[w].(state := state, lastSeenAt := now)])
    case Heartbeat(w, beat, now) =>
      var jobs := if beat.Leased() then s.jobs[beat.activeJobId.value := Renewed(s.jobs[beat.activeJobId.value], now, cfg.lease)]
                  else s.jobs;
      s.(workers := s.workers[w := Beaten(s.workers[w], beat, RunningCount(jobs, w), now)], jobs := jobs)
    case MarkOffline(stale) =>
      s.(workers := AllOffline(s.workers, stale))
    case Submit(j, sub, sequence, now) =>
      s.(jobs := s.jobs[j := NewJob(j, sub, sequence, now)])
    case Claim(w, j, token, now) =>
      Store(s.workers[w := s.workers[w].(activeJobs := s.workers[w].activeJobs + 1)],
            s.jobs[j := Claimed(s.jobs[j], w, token, now, cfg.lease)],
            s.tokens + {token})
    case Complete(j, result, w, token, now) =>
      s.(workers := Release(s.workers, Some(w)), jobs := s.jobs[j := Completed(s.jobs[j], result, now)])
    case Fail(j, message, retryable, w, token, now) =>
      s.(workers := Release(s.workers, Some(w)),
         jobs := s.jobs[j := Retried(s.jobs[j], retryable && s.jobs[j].attempts < s.jobs[j].maxAttempts, message, now)])
    case Cancel(j, now) =>
      s.(workers := if s.jobs[j].status.Running? then Release(s.workers, s.jobs[j].assignedWorker) else s.workers,
         jobs := s.jobs[j := Dropped(s.jobs[j], now)])
    case Recover(j, now) =>
      s.(workers := Release(s.workers, s.jobs[j].assignedWorker), jobs := s.jobs[j := Recovered(s.jobs[j], now)])
  }

  // -------------------------------------------------------------- invariant

  /** What a single job row satisfies whatever else is in the store. */
  ghost predicate JobShape(id: string, job: JobRecord, tokens: set<string>) {
    && job.jobId == id && job.sequence >= 1 && job.requirements.Valid()
    && 0 <= job.attempts <= job.maxAttempts
    && job.idempotencyKey != Some("")
    && (job.status.Queued? ==> job.attempts < job.maxAttempts)
    && (job.status.Running? ==> job.attempts >= 1)
    && (job.status.Running? <==> job.assignedWorker.Some?)
    && (job.status.Running? <==> job.leaseToken.Some?)
    && (job.status.Running? <==> job.leaseExpiresAt.Some?)
    && (job.leaseToken.Some? ==> job.leaseToken.value in tokens && job.leaseToken.value != "")
  }

  ghost predicate JobsShaped(s: Store) {
    forall j :: j in s.jobs ==> JobShape(j, s.jobs[j], s.tokens)
  }

  /** Sequence numbers, idempotency keys and live lease tokens identify one job. */
  ghost predicate JobsDistinct(s: Store) {
    forall i, j :: i in s.jobs && j in s.jobs && i != j ==>
      && s.jobs[i].sequence != s.jobs[j].sequence
      && (s.jobs[i].idempotencyKey.Some? ==> s.jobs[i].idempotencyKey != s.jobs[j].idempotencyKey)
      && (s.jobs[i].leaseToken.Some? ==> s.jobs[i].leaseToken != s.jobs[j].leaseToken)
  }

  ghost predicate WorkersShaped(s: Store) {
    forall w :: w in s.workers ==> s.workers[w].spec.workerId == w && s.workers[w].spec.Valid() && s.workers[w].maxConcurrency >= 1
  }

  /** The cached counter is the number of running jobs and within the limit. */
  ghost predicate CountersExact(s: Store) {
    forall w :: w in s.workers ==>
      s.workers[w].activeJobs == RunningCount(s.jobs, w) && s.workers[w].activeJobs <= s.workers[w].maxConcurrency
  }

  /** Every running job sits on a known worker that still fits it. */
  ghost predicate RunningFits(s: Store) {
    forall j :: j in s.jobs && s.jobs[j].assignedWorker.Some? ==>
      && s.jobs[j].assignedWorker.value in s.workers
      && s.jobs[j].capability in s.workers[s.jobs[j].assignedWorker.value].spec.capabilities
      && WorkerMatches(s.workers[s.jobs[j].assignedWorker.value].spec, s.jobs[j].requirements)
  }

  /** Two distinct owning workers never share a GPU. */
  ghost predicate Exclusive(s: Store) {
    forall v, w :: v in s.workers && w in s.workers && v != w && Owns(s.workers[v]) && Owns(s.workers[w]) ==>
      Gpus(s.workers[v].spec) !! Gpus(s.workers[w].spec)
  }

  ghost predicate Valid(s: Store) {
    && JobsShaped(s) && JobsDistinct(s) && WorkersShaped(s)
    && CountersExact(s) && RunningFits(s) && Exclusive(s)
  }

  const EMPTY := Store(map[], map[], {})

  // ---------------------------------------------------- counting running jobs

  lemma CountUnchanged(before: map<string, JobRecord>, after: map<string, JobRecord>, w: string)
    requires forall j :: (j in before && RunsOn(before[j], w)) <==> (j in after && RunsOn(after[j], w))
    ensures RunningCount(after, w) == RunningCount(before, w)
  {
    assert RunningOn(after, w) == RunningOn(before, w);
  }

  /** One job starts running on `w`. */
  lemma CountRises(jobs: map<string, JobRecord>, j: string, job: JobRecord, w: string)
    requires !(j in jobs && RunsOn(jobs[j], w)) && RunsOn(job, w)
    ensures RunningCount(jobs[j := job], w) == RunningCount(jobs, w) + 1
  {
    assert RunningOn(jobs[j := job], w) == RunningOn(jobs, w) + {j};
  }

  /** One job stops running on `w`. */
  lemma CountFalls(jobs: map<string, JobRecord>, j: string, job: JobRecord, w: string)
    requires j in jobs && RunsOn(jobs[j], w) && !RunsOn(job, w)
    ensures RunningCount(jobs[j := job], w) == RunningCount(jobs, w) - 1
    ensures RunningCount(jobs, w) >= 1
  {
    assert j in RunningOn(jobs, w);
    assert RunningOn(jobs[j := job], w) == RunningOn(jobs, w) - {j};
  }

  lemma CountZero(jobs: map<string, JobRecord>, w: string)
    requires RunningCount(jobs, w) == 0
    ensures forall j :: j in jobs ==> !RunsOn(jobs[j], w)
  {
    assert RunningOn(jobs, w) == {};
    forall j | j in jobs ensures !RunsOn(jobs[j], w) {
      assert RunsOn(jobs[j], w) <==> j in RunningOn(jobs, w);
    }
  }
}
