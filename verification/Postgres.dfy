/** The durable repository as interleaved READ COMMITTED transactions.  One step is
    one SQL statement (with the Python checks that follow it).  A statement sees the
    rows committed when it runs, a lock is taken only when no other transaction holds
    it and is kept to the end, and writes become visible together at commit.  The
    advisory key function is arbitrary: two identities may share a key. */
module Postgres {
  import opened Contracts
  import opened Scheduling
  import opened Ledger
  import opened LedgerRuns
  import ClaimFilter

  /** Locks of the protocol.  `Uuid` and `Sequence` stand for a drawn uuid4 and a drawn
      sequence number: no two live transactions draw the same one.  `UniqueKey` is the
      entry in the unique index over idempotency keys that an insert takes. */
  datatype Lock =
    | Identity(key: int) | Gpu(key: int) | JobRow(job: string) | WorkerRow(worker: string)
    | UniqueKey(entry: string) | Sequence(number: int) | Uuid(token: string)

  datatype Request =
    | RegisterReq(registration: WorkerRegistration, now: int)
    | SetStateReq(worker: string, state: WorkerState, now: int)
    | HeartbeatReq(worker: string, beat: WorkerHeartbeat, now: int)
    | ClaimReq(worker: string, now: int)
    | CompleteReq(job: string, result: Opaque, worker: string, token: string, now: int)
    | FailReq(job: string, message: Opaque, retryable: bool, worker: string, token: string, now: int)
    | CancelReq(job: string, now: int)
    | RecoverReq(now: int)
    | ExpireReq(now: int)
    | SubmitReq(job: string, submission: JobSubmission, now: int)

  datatype Phase =
    Begin | Identified | Locking | Fetched | Checked | Counted | Seen | JobLocked | JobWritten | WorkerLocked | Ready

  /** A live transaction: what it asked for, how far it got, the locks it holds, the
      values its statements returned and its uncommitted writes. */
  datatype Tx = Tx(
    req: Request, phase: Phase, locks: set<Lock>,
    topology: Option<set<string>>, pending: seq<int>,
    worker: Option<WorkerRecord>, job: Option<JobRecord>, count: int, token: string,
    workerWrites: map<string, WorkerRecord>, jobWrites: map<string, JobRecord>)

  function Opened(req: Request): Tx {
    Tx(req, Begin, {}, None, [], None, None, 0, "", map[], map[])
  }

  ghost predicate WellFormed(req: Request) {
    (req.RegisterReq? ==> req.registration.Valid()) && (req.SubmitReq? ==> req.submission.Valid())
  }

  // -------------------------------------------------- enrolment and state changes

  predicate Ascending(keys: seq<int>) {
    forall i, k :: 0 <= i < k < |keys| ==> keys[i] < keys[k]
  }

  /** The sorted, deduplicated lock keys of a GPU set. */
  ghost predicate SortedKeys(key: string -> int, gpus: set<string>, keys: seq<int>) {
    Ascending(keys) && (forall k :: k in keys <==> exists g :: g in gpus && key(g) == k)
  }

  function Topology(workers: map<string, WorkerRecord>, w: string): Option<set<string>> {
    if w in workers then Some(Gpus(workers[w].spec)) else None
  }

  function KnownGpus(topology: Option<set<string>>): set<string> {
    if topology.Some? then topology.value else {}
  }

  /** Identity lock, topology read, GPU locks in key order, then the worker row. */
  ghost predicate ExecOwnership(key: string -> int, db: Store, held: set<Lock>, tx: Tx, tx': Tx, w: string, requested: set<string>) {
    match tx.phase
    case Begin =>
      Identity(key(w)) !in held && tx' == tx.(phase := Identified, locks := tx.locks + {Identity(key(w))})
    case Identified =>
      && SortedKeys(key, requested + KnownGpus(Topology(db.workers, w)), tx'.pending)
      && tx' == tx.(phase := Locking, topology := Topology(db.workers, w), pending := tx'.pending)
    case Locking =>
      if tx.pending != [] then
        && Gpu(tx.pending[0]) !in held
        && tx' == tx.(locks := tx.locks + {Gpu(tx.pending[0])}, pending := tx.pending[1..])
      else if w in db.workers then
        && WorkerRow(w) !in held
        && tx' == tx.(phase := Fetched, locks := tx.locks + {WorkerRow(w)}, worker := Some(db.workers[w]))
      else tx' == tx.(phase := Fetched, worker := None)
    case _ => false
  }

  ghost predicate ExecRegister(key: string -> int, db: Store, held: set<Lock>, tx: Tx, tx': Tx, reg: WorkerRegistration, now: int) {
    var w := reg.spec.workerId;
    match tx.phase
    case Fetched =>
      && (tx.worker.Some? && tx.worker.value.activeJobs > 0 ==>
            reg.spec == tx.worker.value.spec && reg.maxConcurrency >= tx.worker.value.activeJobs)
      && NoOverlap(db.workers, w, Gpus(reg.spec))
      && tx' == tx.(phase := Checked)
    case Checked =>
      tx' == tx.(phase := Counted, count := RunningCount(db.jobs, w))
    case Counted =>
      && WorkerRow(w) !in held
      && tx' == tx.(phase := Ready, locks := tx.locks + {WorkerRow(w)},
                    workerWrites := map[w := WorkerRecord(reg.spec, reg.maxConcurrency, Online, tx.count,
                      if tx.worker.Some? then tx.worker.value.registeredAt else now, now, reg.metadata)])
    case _ => ExecOwnership(key, db, held, tx, tx', w, Gpus(reg.spec))
  }

  ghost predicate ExecSetState(key: string -> int, db: Store, held: set<Lock>, tx: Tx, tx': Tx, w: string, state: WorkerState, now: int) {
    match tx.phase
    case Fetched =>
      && tx.worker.Some?
      && (!state.Offline? ==> NoOverlap(db.workers, w, Gpus(tx.worker.value.spec)))
      && tx' == tx.(phase := Checked)
    case Checked =>
      && w in db.workers
      && tx' == tx.(phase := Ready, workerWrites := map[w := db.workers[w].(state := state, lastSeenAt := now)])
    case Counted => false
    case _ => ExecOwnership(key, db, held, tx, tx', w, {})
  }

  // ------------------------------------------------------------------ heartbeat

  ghost predicate ExecHeartbeat(cfg: Config, db: Store, held: set<Lock>, tx: Tx, tx': Tx, w: string, beat: WorkerHeartbeat, now: int) {
    match tx.phase
    case Begin =>
      if beat.Leased() then
        && beat.LeaseComplete() && beat.activeJobId.value in db.jobs
        && JobRow(beat.activeJobId.value) !in held
        && LeaseHeld(db.jobs[beat.activeJobId.value], w, beat.leaseToken.value, now)
        && tx' == tx.(phase := JobLocked, locks := tx.locks + {JobRow(beat.activeJobId.value)},
                      job := Some(db.jobs[beat.activeJobId.value]))
      else LockBeatingWorker(db, held, tx, tx', w, beat)
    case JobLocked =>
      && beat.activeJobId.Some? && beat.activeJobId.value in db.jobs
      && tx' == tx.(phase := JobWritten,
                    jobWrites := map[beat.activeJobId.value := Renewed(db.jobs[beat.activeJobId.value], now, cfg.lease)])
    case JobWritten => LockBeatingWorker(db, held, tx, tx', w, beat)
    case WorkerLocked => tx' == tx.(phase := Counted, count := RunningCount(db.jobs + tx.jobWrites, w))
    case Counted =>
      && w in db.workers && tx.worker.Some?
      && tx' == tx.(phase := Ready, workerWrites := map[w := db.workers[w].(
                      state := if beat.state.Some? then beat.state.value else tx.worker.value.state,
                      lastSeenAt := now, activeJobs := tx.count,
                      metadata := MergeMetadata(tx.worker.value.metadata, beat.metadata))])
    case _ => false
  }

  ghost predicate LockBeatingWorker(db: Store, held: set<Lock>, tx: Tx, tx': Tx, w: string, beat: WorkerHeartbeat) {
    && w in db.workers && WorkerRow(w) !in held
    && StaysReleased(db.workers[w], beat)
    && tx' == tx.(phase := WorkerLocked, locks := tx.locks + {WorkerRow(w)}, worker := Some(db.workers[w]))
  }

  // ---------------------------------------------------------------------- claim

  ghost predicate ExecClaim(cfg: Config, db: Store, held: set<Lock>, tx: Tx, tx': Tx, w: string, now: int) {
    match tx.phase
    case Begin =>
      w in db.workers && tx' == tx.(phase := Seen, worker := Some(db.workers[w]))
    case Seen =>
      && tx.worker.Some? && w in db.workers
      && (if tx.worker.value.lastSeenAt < now - cfg.workerTtl then
            && WorkerRow(w) !in held
            && tx' == tx.(phase := Ready, locks := tx.locks + {WorkerRow(w)},
                          workerWrites := map[w := db.workers[w].(state := Offline)])
          else
            && tx.worker.value.state.Online?
            && db.workers[w].activeJobs < db.workers[w].maxConcurrency
            && SelectsJob(db, held, tx, tx', tx.worker.value.spec, now))
    case JobLocked =>
      && tx.job.Some? && w in db.workers && WorkerRow(w) !in held
      && db.workers[w].lastSeenAt >= now - cfg.workerTtl
      && db.workers[w].state.Online?
      && db.workers[w].activeJobs < db.workers[w].maxConcurrency
      && tx.job.value.capability in db.workers[w].spec.capabilities
      && WorkerMatches(db.workers[w].spec, tx.job.value.requirements)
      && tx' == tx.(phase := WorkerLocked, locks := tx.locks + {WorkerRow(w)}, worker := Some(db.workers[w]))
    case WorkerLocked =>
      && tx.job.Some? && tx.job.value.jobId in db.jobs
      && tx'.token != "" && tx'.token !in db.tokens && Uuid(tx'.token) !in held
      && tx' == tx.(phase := JobWritten, locks := tx.locks + {Uuid(tx'.token)}, token := tx'.token,
                    jobWrites := map[tx.job.value.jobId := Claimed(db.jobs[tx.job.value.jobId], w, tx'.token, now, cfg.lease)])
    case JobWritten =>
      && w in db.workers
      && tx' == tx.(phase := Ready, workerWrites := map[w := db.workers[w].(activeJobs := db.workers[w].activeJobs + 1)])
    case _ => false
  }

  /** FOR UPDATE SKIP LOCKED LIMIT 1: the first eligible job nobody else has locked. */
  ghost predicate SelectsJob(db: Store, held: set<Lock>, tx: Tx, tx': Tx, spec: WorkerSpec, now: int) {
    && tx'.job.Some?
    && var j := tx'.job.value.jobId;
    && j in db.jobs && tx'.job.value == db.jobs[j] && JobRow(j) !in held
    && Eligible(db.jobs[j], spec, now)
    && (forall i :: i in db.jobs && JobRow(i) !in held && Eligible(db.jobs[i], spec, now) ==> ClaimedBefore(db.jobs[j], db.jobs[i]))
    && tx' == tx.(phase := JobLocked, locks := tx.locks + {JobRow(j)}, job := Some(db.jobs[j]))
  }

  /** The statement's WHERE clause is the stored-form filter: as long as the minima fit the
      cast, a queued and available row is eligible exactly when the filter accepts it. */
  lemma SelectsByFilter(job: JobRecord, spec: WorkerSpec, now: int)
    requires job.requirements.Valid() && ClaimFilter.FitsInteger(job.requirements)
    ensures Eligible(job, spec, now) <==>
              && job.status.Queued? && job.availableAt <= now && job.attempts < job.maxAttempts
              && ClaimFilter.Filter(ClaimFilter.RequirementsToDict(job.requirements), job.capability, spec) == ClaimFilter.Value(true)
  {
    hide ClaimFilter.Filter, ClaimFilter.RequirementsToDict, WorkerMatches;
    ClaimFilter.FilterAgreesWithMatcher(job.requirements, job.capability, spec);
  }

  /** The row a claim takes, skipping locked ones, has the highest priority of the eligible rows
      nobody has in hand, and is the oldest of that priority. */
  lemma SelectsFirst(cfg: Config, key: string -> int, db: Store, held: set<Lock>, tx: Tx, tx': Tx, i: string)
    requires tx.req.ClaimReq? && tx'.phase.JobLocked? && Exec(cfg, key, db, held, tx, tx')
    ensures tx.worker.Some? && tx'.job.Some? && tx'.job.value.jobId in db.jobs
    ensures var j, spec, now := tx'.job.value.jobId, tx.worker.value.spec, tx.req.now;
      && tx'.job.value == db.jobs[j] && JobRow(j) !in held && JobRow(j) in tx'.locks && Eligible(db.jobs[j], spec, now)
      && (i in db.jobs && JobRow(i) !in held && Eligible(db.jobs[i], spec, now) ==>
            || db.jobs[j].priority > db.jobs[i].priority
            || (db.jobs[j].priority == db.jobs[i].priority && db.jobs[j].sequence <= db.jobs[i].sequence))
  {
    hide WorkerMatches;
  }

  // -------------------------------------------------------- end of an attempt

  ghost predicate LocksJob(db: Store, held: set<Lock>, tx: Tx, tx': Tx, j: string) {
    && j in db.jobs && JobRow(j) !in held
    && tx' == tx.(phase := JobLocked, locks := tx.locks + {JobRow(j)}, job := Some(db.jobs[j]))
  }

  ghost predicate WritesJob(tx: Tx, tx': Tx, j: string, row: JobRecord, next: Phase) {
    tx' == tx.(phase := next, jobWrites := map[j := row])
  }

  /** UPDATE workers SET active_jobs = GREATEST(active_jobs - 1, 0) WHERE id = w. */
  ghost predicate Decrements(db: Store, held: set<Lock>, tx: Tx, tx': Tx, w: Option<string>) {
    if w.Some? && w.value in db.workers then
      && WorkerRow(w.value) !in held
      && tx' == tx.(phase := Ready, locks := tx.locks + {WorkerRow(w.value)},
                    workerWrites := map[w.value := Release(db.workers, w)[w.value]])
    else tx' == tx.(phase := Ready)
  }

  ghost predicate ExecComplete(db: Store, held: set<Lock>, tx: Tx, tx': Tx) requires tx.req.CompleteReq? {
    var CompleteReq(j, result, w, token, now) := tx.req;
    match tx.phase
    case Begin => LocksJob(db, held, tx, tx', j) && LeaseHeld(db.jobs[j], w, token, now)
    case JobLocked => j in db.jobs && WritesJob(tx, tx', j, Completed(db.jobs[j], result, now), JobWritten)
    case JobWritten => Decrements(db, held, tx, tx', Some(w))
    case _ => false
  }

  ghost predicate ExecFail(db: Store, held: set<Lock>, tx: Tx, tx': Tx) requires tx.req.FailReq? {
    var FailReq(j, message, retryable, w, token, now) := tx.req;
    match tx.phase
    case Begin => LocksJob(db, held, tx, tx', j) && LeaseHeld(db.jobs[j], w, token, now)
    case JobLocked =>
      && tx.job.Some? && j in db.jobs
      && WritesJob(tx, tx', j, Retried(db.jobs[j], retryable && tx.job.value.attempts < tx.job.value.maxAttempts, message, now), JobWritten)
    case JobWritten => Decrements(db, held, tx, tx', Some(w))
    case _ => false
  }

  /** Cancelling a terminal job returns it and writes nothing, so it has no step here. */
  ghost predicate ExecCancel(db: Store, held: set<Lock>, tx: Tx, tx': Tx) requires tx.req.CancelReq? {
    var CancelReq(j, now) := tx.req;
    match tx.phase
    case Begin => LocksJob(db, held, tx, tx', j) && !db.jobs[j].status.Terminal()
    case JobLocked =>
      && tx.job.Some? && j in db.jobs
      && WritesJob(tx, tx', j, Dropped(db.jobs[j], now), if tx.job.value.status.Running? then JobWritten else Ready)
    case JobWritten => tx.job.Some? && Decrements(db, held, tx, tx', tx.job.value.assignedWorker)
    case _ => false
  }

  /** One iteration of the recovery loop: the oldest expired job nobody else has locked. */
  ghost predicate ExecRecover(db: Store, held: set<Lock>, tx: Tx, tx': Tx) requires tx.req.RecoverReq? {
    var now := tx.req.now;
    match tx.phase
    case Begin =>
      && tx'.job.Some?
      && LocksJob(db, held, tx, tx', tx'.job.value.jobId)
      && Expired(db.jobs[tx'.job.value.jobId], now)
      && (forall i :: i in db.jobs && JobRow(i) !in held && Expired(db.jobs[i], now) ==>
            db.jobs[tx'.job.value.jobId].sequence <= db.jobs[i].sequence)
    case JobLocked =>
      && tx.job.Some? && tx.job.value.jobId in db.jobs
      && WritesJob(tx, tx', tx.job.value.jobId,
                   Retried(db.jobs[tx.job.value.jobId], tx.job.value.attempts < tx.job.value.maxAttempts, LEASE_EXPIRED, now), JobWritten)
    case JobWritten => tx.job.Some? && Decrements(db, held, tx, tx', tx.job.value.assignedWorker)
    case _ => false
  }

  /** A multi-row UPDATE: stale rows one at a time in any order, then done. */
  ghost predicate ExecExpire(cfg: Config, db: Store, held: set<Lock>, tx: Tx, tx': Tx) requires tx.req.ExpireReq? {
    && tx.phase.Begin?
    && (tx' == tx.(phase := Ready) || exists w :: MarksRow(cfg, db, held, tx, tx', w))
  }

  ghost predicate MarksRow(cfg: Config, db: Store, held: set<Lock>, tx: Tx, tx': Tx, w: string) requires tx.req.ExpireReq? {
    && w in db.workers && WorkerRow(w) !in held && w !in tx.workerWrites
    && !db.workers[w].state.Offline? && db.workers[w].lastSeenAt < tx.req.now - cfg.workerTtl
    && tx' == tx.(locks := tx.locks + {WorkerRow(w)}, workerWrites := tx.workerWrites[w := db.workers[w].(state := Offline)])
  }

  // ----------------------------------------------------------------- submission

  predicate HasKey(db: Store, j: string, key: Option<string>) {
    j in db.jobs && db.jobs[j].idempotencyKey == key
  }

  ghost predicate KeyTaken(db: Store, key: Option<string>) {
    key.Some? && exists j :: HasKey(db, j, key)
  }

  ghost function KeyHolder(db: Store, key: Option<string>): string
    requires KeyTaken(db, key)
  {
    var j :| HasKey(db, j, key); j
  }

  /** What inserting a job row takes: the row, its sequence number and its key. */
  function InsertLocks(j: string, key: Option<string>, sequence: int): set<Lock> {
    {JobRow(j), Sequence(sequence)} + (if key.Some? then {UniqueKey(key.value)} else {})
  }

  /** The lookup by key under FOR UPDATE, the insert that does nothing on a conflict, and the
      second lookup after one.  The insert waits for a transaction that has the key in hand. */
  ghost predicate ExecSubmit(db: Store, held: set<Lock>, tx: Tx, tx': Tx) requires tx.req.SubmitReq? {
    var SubmitReq(j, sub, now) := tx.req;
    var key := sub.idempotencyKey;
    match tx.phase
    case Begin =>
      if KeyTaken(db, key) then LocksJob(db, held, tx, tx', KeyHolder(db, key)) else tx' == tx.(phase := Seen)
    case Seen =>
      && (key.Some? ==> UniqueKey(key.value) !in held)
      && (if KeyTaken(db, key) then tx' == tx.(phase := Checked)
          else
            && j !in db.jobs && InsertLocks(j, key, tx'.count) !! held
            && tx'.count >= 1 && (forall i :: i in db.jobs ==> db.jobs[i].sequence != tx'.count)
            && tx' == tx.(phase := Ready, count := tx'.count, locks := tx.locks + InsertLocks(j, key, tx'.count),
                          jobWrites := map[j := NewJob(j, sub, tx'.count, now)]))
    case Checked => KeyTaken(db, key) && LocksJob(db, held, tx, tx', KeyHolder(db, key))
    case _ => false
  }

  // ------------------------------------------------------------------- the system

  ghost predicate Exec(cfg: Config, key: string -> int, db: Store, held: set<Lock>, tx: Tx, tx': Tx) {
    match tx.req
    case RegisterReq(reg, now) => ExecRegister(key, db, held, tx, tx', reg, now)
    case SetStateReq(w, state, now) => ExecSetState(key, db, held, tx, tx', w, state, now)
    case HeartbeatReq(w, beat, now) => ExecHeartbeat(cfg, db, held, tx, tx', w, beat, now)
    case ClaimReq(w, now) => ExecClaim(cfg, db, held, tx, tx', w, now)
    case CompleteReq(_, _, _, _, _) => ExecComplete(db, held, tx, tx')
    case FailReq(_, _, _, _, _, _) => ExecFail(db, held, tx, tx')
    case CancelReq(_, _) => ExecCancel(db, held, tx, tx')
    case RecoverReq(_) => ExecRecover(db, held, tx, tx')
    case ExpireReq(_) => ExecExpire(cfg, db, held, tx, tx')
    case SubmitReq(_, _, _) => ExecSubmit(db, held, tx, tx')
  }

  datatype Sys = Sys(db: Store, txs: map<nat, Tx>)

  function HeldByOthers(s: Sys, t: nat): set<Lock> {
    set u, l | u in s.txs && u != t && l in s.txs[u].locks :: l
  }

  function Committed(db: Store, tx: Tx): Store {
    Store(db.workers + tx.workerWrites, db.jobs + tx.jobWrites, db.tokens + (if tx.token == "" then {} else {tx.token}))
  }

  /** Any live transaction may stop without effect at any moment: an exception, a check
      that failed, a `None` result, a row returned as it was, or a lost connection. */
  datatype Step =
    | Start(t: nat, req: Request)
    | Statement(t: nat, after: Tx)
    | Commit(t: nat)
    | Stop(t: nat)

  ghost predicate CanStep(cfg: Config, key: string -> int, s: Sys, step: Step) {
    match step
    case Start(t, req) => t !in s.txs && WellFormed(req)
    case Statement(t, after) => t in s.txs && Exec(cfg, key, s.db, HeldByOthers(s, t), s.txs[t], after)
    case Commit(t) => t in s.txs && s.txs[t].phase.Ready?
    case Stop(t) => t in s.txs
  }

  ghost function DoStep(cfg: Config, key: string -> int, s: Sys, step: Step): Sys
    requires CanStep(cfg, key, s, step)
  {
    match step
    case Start(t, req) => s.(txs := s.txs[t := Opened(req)])
    case Statement(t, after) => s.(txs := s.txs[t := after])
    case Commit(t) => Sys(Committed(s.db, s.txs[t]), s.txs - {t})
    case Stop(t) => s.(txs := s.txs - {t})
  }

  /** A run from `s`: a list of steps each possible where it is taken. */
  ghost predicate Runs(cfg: Config, key: string -> int, s: Sys, steps: seq<Step>)
    decreases |steps|
  {
    steps == [] || (CanStep(cfg, key, s, steps[0]) && Runs(cfg, key, DoStep(cfg, key, s, steps[0]), steps[1..]))
  }

  ghost function After(cfg: Config, key: string -> int, s: Sys, steps: seq<Step>): Sys
    requires Runs(cfg, key, s, steps)
    decreases |steps|
  {
    if steps == [] then s else After(cfg, key, DoStep(cfg, key, s, steps[0]), steps[1..])
  }

  const INITIAL := Sys(EMPTY, map[])

  /** The atomic event a ready transaction stands for. */
  function EventOf(tx: Tx): Event
    requires tx.req.RecoverReq? ==> tx.job.Some?
  {
    match tx.req
    case RegisterReq(reg, now) => Register(reg, now)
    case SetStateReq(w, state, now) => SetState(w, state, now)
    case HeartbeatReq(w, beat, now) => Heartbeat(w, beat, now)
    case ClaimReq(w, now) => if tx.job.Some? then Claim(w, tx.job.value.jobId, tx.token, now) else MarkOffline({w})
    case CompleteReq(j, result, w, token, now) => Complete(j, result, w, token, now)
    case FailReq(j, message, retryable, w, token, now) => Fail(j, message, retryable, w, token, now)
    case CancelReq(j, now) => Cancel(j, now)
    case RecoverReq(now) => Recover(tx.job.value.jobId, now)
    case ExpireReq(now) => MarkOffline(tx.workerWrites.Keys)
    case SubmitReq(j, sub, now) => Submit(j, sub, tx.count, now)
  }
}
