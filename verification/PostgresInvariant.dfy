/** Every interleaving of the durable repository's transactions is equivalent to the
    atomic events of the ready transactions in commit order.  Each transaction keeps
    an invariant that only its own locks protect; a commit has a footprint covered by
    the committer's locks; locks of different transactions are disjoint. */
module PostgresInvariant {
  import opened Contracts
  import opened Scheduling
  import opened Ledger
  import opened LedgerInvariant
  import opened LedgerRuns
  import opened Postgres

  // ----------------------------------------------- what a transaction may rely on

  ghost predicate NothingWritten(tx: Tx) {
    tx.workerWrites == map[] && tx.jobWrites == map[] && tx.token == ""
  }

  /** The row it read under lock is still the committed one. */
  ghost predicate HoldsWorker(db: Store, tx: Tx, w: string) {
    && tx.worker.Some? && WorkerRow(w) in tx.locks
    && w in db.workers && db.workers[w] == tx.worker.value
  }

  ghost predicate HoldsJob(db: Store, tx: Tx, j: string) {
    && tx.job.Some? && JobRow(j) in tx.locks
    && j in db.jobs && db.jobs[j] == tx.job.value && tx.job.value.jobId == j
  }

  ghost predicate OwnershipInv(key: string -> int, db: Store, tx: Tx, w: string, requested: set<string>) {
    && (tx.phase.Begin? || Identity(key(w)) in tx.locks)
    && (!tx.phase.Begin? && !tx.phase.Identified? ==>
          && tx.topology == Topology(db.workers, w)
          && (forall g :: g in requested + KnownGpus(tx.topology) ==> Gpu(key(g)) in tx.locks || key(g) in tx.pending))
    && (!tx.phase.Begin? && !tx.phase.Identified? && !tx.phase.Locking? ==>
          && tx.pending == []
          && (if w in db.workers then HoldsWorker(db, tx, w) else tx.worker.None?))
  }

  ghost predicate RegisterInv(key: string -> int, db: Store, tx: Tx) requires tx.req.RegisterReq? {
    var reg, w := tx.req.registration, tx.req.registration.spec.workerId;
    && reg.Valid()
    && (tx.phase.Begin? || tx.phase.Identified? || tx.phase.Locking? || tx.phase.Fetched? || tx.phase.Checked? || tx.phase.Counted? || tx.phase.Ready?)
    && OwnershipInv(key, db, tx, w, Gpus(reg.spec))
    && (tx.phase.Checked? || tx.phase.Counted? || tx.phase.Ready? ==>
          ShapeKept(db.workers, reg) && NoOverlap(db.workers, w, Gpus(reg.spec)))
    && (tx.phase.Counted? || tx.phase.Ready? ==> tx.count == RunningCount(db.jobs, w))
    && (if tx.phase.Ready? then
          && WorkerRow(w) in tx.locks && tx.jobWrites == map[] && tx.token == ""
          && tx.workerWrites == map[w := Enrolled(db, reg, tx.req.now)]
        else NothingWritten(tx))
  }

  ghost predicate SetStateInv(key: string -> int, db: Store, tx: Tx) requires tx.req.SetStateReq? {
    var w, state := tx.req.worker, tx.req.state;
    && (tx.phase.Begin? || tx.phase.Identified? || tx.phase.Locking? || tx.phase.Fetched? || tx.phase.Checked? || tx.phase.Ready?)
    && OwnershipInv(key, db, tx, w, {})
    && (tx.phase.Checked? || tx.phase.Ready? ==>
          w in db.workers && (!state.Offline? ==> NoOverlap(db.workers, w, Gpus(db.workers[w].spec))))
    && (if tx.phase.Ready? then
          && tx.jobWrites == map[] && tx.token == ""
          && tx.workerWrites == map[w := db.workers[w].(state := state, lastSeenAt := tx.req.now)]
        else NothingWritten(tx))
  }

  ghost predicate HeartbeatInv(cfg: Config, db: Store, tx: Tx) requires tx.req.HeartbeatReq? {
    var HeartbeatReq(w, beat, now) := tx.req;
    var leased := beat.Leased() && !tx.phase.Begin?;
    && (tx.phase.Begin? || tx.phase.JobLocked? || tx.phase.JobWritten? || tx.phase.WorkerLocked? || tx.phase.Counted? || tx.phase.Ready?)
    && tx.token == ""
    && (tx.phase.JobLocked? || tx.phase.JobWritten? ==> beat.Leased())
    && (leased ==>
          && beat.LeaseComplete()
          && HoldsJob(db, tx, beat.activeJobId.value)
          && LeaseHeld(tx.job.value, w, beat.leaseToken.value, now))
    && tx.jobWrites == (if leased && !tx.phase.JobLocked?
                        then map[beat.activeJobId.value := Renewed(db.jobs[beat.activeJobId.value], now, cfg.lease)] else map[])
    && (tx.phase.WorkerLocked? || tx.phase.Counted? || tx.phase.Ready? ==>
          HoldsWorker(db, tx, w) && StaysReleased(db.workers[w], beat))
    && (tx.phase.Counted? || tx.phase.Ready? ==> tx.count == RunningCount(db.jobs, w))
    && tx.workerWrites == (if tx.phase.Ready? then map[w := Beaten(db.workers[w], beat, tx.count, now)] else map[])
  }

  ghost predicate ClaimInv(cfg: Config, db: Store, tx: Tx) requires tx.req.ClaimReq? {
    var ClaimReq(w, now) := tx.req;
    && (tx.phase.Begin? || tx.phase.Seen? || tx.phase.JobLocked? || tx.phase.WorkerLocked? || tx.phase.JobWritten? || tx.phase.Ready?)
    && (tx.phase.Begin? || tx.phase.Seen? ==> tx.job.None?)
    && (tx.phase.JobLocked? || tx.phase.WorkerLocked? || tx.phase.JobWritten? ==> tx.job.Some?)
    && (tx.phase.Seen? || (tx.phase.Ready? && tx.job.None?) ==> tx.worker.Some?)
    && (tx.phase.Ready? && tx.job.None? ==> tx.worker.value.lastSeenAt < now - cfg.workerTtl)
    && (tx.job.Some? ==>
          && HoldsJob(db, tx, tx.job.value.jobId)
          && tx.job.value.status.Queued? && tx.job.value.availableAt <= now && tx.job.value.attempts < tx.job.value.maxAttempts)
    && (tx.job.Some? && !tx.phase.JobLocked? ==>
          && HoldsWorker(db, tx, w)
          && db.workers[w].lastSeenAt >= now - cfg.workerTtl && db.workers[w].state.Online?
          && db.workers[w].activeJobs < db.workers[w].maxConcurrency
          && Eligible(tx.job.value, db.workers[w].spec, now))
    && (if tx.phase.JobWritten? || (tx.phase.Ready? && tx.job.Some?) then
          && tx.token != "" && tx.token !in db.tokens && Uuid(tx.token) in tx.locks
          && tx.jobWrites == map[tx.job.value.jobId := Claimed(tx.job.value, w, tx.token, now, cfg.lease)]
        else tx.jobWrites == map[] && tx.token == "")
    && (if tx.phase.Ready? then
          && w in db.workers && WorkerRow(w) in tx.locks
          && tx.workerWrites == map[w := if tx.job.Some? then db.workers[w].(activeJobs := db.workers[w].activeJobs + 1)
                                         else db.workers[w].(state := Offline)]
        else tx.workerWrites == map[])
  }

  /** Complete, fail, cancel and recover share one shape: job row, new job row, counter. */
  ghost predicate EndingInv(db: Store, tx: Tx, j: string, row: JobRecord, precondition: bool) {
    && (tx.phase.JobLocked? || tx.phase.JobWritten? || tx.phase.Ready?)
    && tx.token == ""
    && HoldsJob(db, tx, j) && precondition
    && (tx.phase.JobWritten? ==> tx.job.value.status.Running?)
    && tx.jobWrites == (if tx.phase.JobLocked? then map[] else map[j := row])
    && (if tx.phase.Ready? && tx.job.value.status.Running? then
          && tx.job.value.assignedWorker.Some?
          && var w := tx.job.value.assignedWorker.value;
          && w in db.workers && WorkerRow(w) in tx.locks
          && tx.workerWrites == map[w := Release(db.workers, tx.job.value.assignedWorker)[w]]
        else tx.workerWrites == map[])
  }

  ghost predicate ExpireInv(cfg: Config, db: Store, tx: Tx) requires tx.req.ExpireReq? {
    && (tx.phase.Begin? || tx.phase.Ready?) && tx.jobWrites == map[] && tx.token == ""
    && (forall w :: w in tx.workerWrites ==>
          && WorkerRow(w) in tx.locks && w in db.workers && tx.workerWrites[w] == db.workers[w].(state := Offline)
          && !db.workers[w].state.Offline? && db.workers[w].lastSeenAt < tx.req.now - cfg.workerTtl)
  }

  /** A found row stays locked and keeps the key; after a conflict some committed job has the
      key; a new row is the only one with its identity, number and key. */
  ghost predicate SubmitInv(db: Store, tx: Tx) requires tx.req.SubmitReq? {
    var SubmitReq(j, sub, now) := tx.req;
    var key := sub.idempotencyKey;
    && sub.Valid()
    && (tx.phase.Begin? || tx.phase.Seen? || tx.phase.Checked? || tx.phase.JobLocked? || tx.phase.Ready?)
    && tx.token == "" && tx.workerWrites == map[]
    && (tx.phase.Checked? ==> KeyTaken(db, key))
    && (tx.phase.JobLocked? ==>
          tx.job.Some? && HoldsJob(db, tx, tx.job.value.jobId) && key.Some? && tx.job.value.idempotencyKey == key)
    && (if tx.phase.Ready? then
          && InsertLocks(j, key, tx.count) <= tx.locks && FreshRow(db, j, key, tx.count)
          && tx.jobWrites == map[j := NewJob(j, sub, tx.count, now)]
        else tx.jobWrites == map[])
  }

  ghost predicate FreshRow(db: Store, j: string, key: Option<string>, sequence: int) {
    j !in db.jobs && sequence >= 1 && (forall i :: i in db.jobs ==> db.jobs[i].sequence != sequence) && !KeyTaken(db, key)
  }

  ghost predicate TxInv(cfg: Config, key: string -> int, db: Store, tx: Tx) {
    match tx.req
    case RegisterReq(_, _) => RegisterInv(key, db, tx)
    case SetStateReq(_, _, _) => SetStateInv(key, db, tx)
    case HeartbeatReq(_, _, _) => HeartbeatInv(cfg, db, tx)
    case ClaimReq(_, _) => ClaimInv(cfg, db, tx)
    case CompleteReq(j, result, w, token, now) =>
      if tx.phase.Begin? then NothingWritten(tx) else
      (tx.job.Some? && EndingInv(db, tx, j, Completed(tx.job.value, result, now), LeaseHeld(tx.job.value, w, token, now)))
    case FailReq(j, message, retryable, w, token, now) =>
      if tx.phase.Begin? then NothingWritten(tx) else
      (tx.job.Some? && EndingInv(db, tx, j,
         Retried(tx.job.value, retryable && tx.job.value.attempts < tx.job.value.maxAttempts, message, now),
         LeaseHeld(tx.job.value, w, token, now)))
    case CancelReq(j, now) =>
      if tx.phase.Begin? then NothingWritten(tx) else
      (tx.job.Some? && EndingInv(db, tx, j, Dropped(tx.job.value, now), !tx.job.value.status.Terminal()))
    case RecoverReq(now) =>
      if tx.phase.Begin? then NothingWritten(tx) else
      (tx.job.Some? && EndingInv(db, tx, tx.job.value.jobId, Recovered(tx.job.value, now), Expired(tx.job.value, now)))
    case ExpireReq(_) => ExpireInv(cfg, db, tx)
    case SubmitReq(_, _, _) => SubmitInv(db, tx)
  }

  // -------------------------------------------------------- statements keep it

  lemma OwnershipStatement(key: string -> int, db: Store, held: set<Lock>, tx: Tx, tx': Tx, w: string, requested: set<string>)
    requires OwnershipInv(key, db, tx, w, requested)
    requires ExecOwnership(key, db, held, tx, tx', w, requested)
    ensures OwnershipInv(key, db, tx', w, requested)
    ensures tx'.phase.Identified? || tx'.phase.Locking? || tx'.phase.Fetched?
    ensures tx'.req == tx.req && tx'.workerWrites == tx.workerWrites && tx'.jobWrites == tx.jobWrites && tx'.token == tx.token
  {
    if tx.phase.Identified? {
      forall g | g in requested + KnownGpus(tx'.topology) ensures key(g) in tx'.pending {
        var all := requested + KnownGpus(Topology(db.workers, w));
        assert exists h :: h in all && key(h) == key(g);
      }
    } else if tx.phase.Locking? && tx.pending != [] {
      forall g | g in requested + KnownGpus(tx'.topology) ensures Gpu(key(g)) in tx'.locks || key(g) in tx'.pending {
        if key(g) in tx.pending { assert key(g) == tx.pending[0] || key(g) in tx.pending[1..]; }
      }
    }
  }

  /** What the invariant of the tables says about one job row. */
  lemma KnownJob(db: Store, j: string)
    requires Valid(db) && j in db.jobs
    ensures db.jobs[j].jobId == j
    ensures db.jobs[j].status.Running? ==>
              db.jobs[j].assignedWorker.Some? && db.jobs[j].assignedWorker.value in db.workers
  {
    hide JobsDistinct, WorkersShaped, CountersExact, Exclusive;
    assert JobShape(j, db.jobs[j], db.tokens);
  }

  lemma RegisterStatement(cfg: Config, key: string -> int, db: Store, held: set<Lock>, tx: Tx, tx': Tx)
    requires Valid(db) && tx.req.RegisterReq? && RegisterInv(key, db, tx)
    requires Exec(cfg, key, db, held, tx, tx')
    ensures tx'.req == tx.req && RegisterInv(key, db, tx')
  {
    hide Valid, NoOverlap, RunningCount, Gpus;
    if tx.phase.Begin? || tx.phase.Identified? || tx.phase.Locking? {
      OwnershipStatement(key, db, held, tx, tx', tx.req.registration.spec.workerId, Gpus(tx.req.registration.spec));
    }
  }

  lemma SetStateStatement(cfg: Config, key: string -> int, db: Store, held: set<Lock>, tx: Tx, tx': Tx)
    requires Valid(db) && tx.req.SetStateReq? && SetStateInv(key, db, tx)
    requires Exec(cfg, key, db, held, tx, tx')
    ensures tx'.req == tx.req && SetStateInv(key, db, tx')
  {
    hide Valid, NoOverlap, Gpus;
    if tx.phase.Begin? || tx.phase.Identified? || tx.phase.Locking? {
      OwnershipStatement(key, db, held, tx, tx', tx.req.worker, {});
    }
  }

  lemma HeartbeatStatement(cfg: Config, key: string -> int, db: Store, held: set<Lock>, tx: Tx, tx': Tx)
    requires Valid(db) && tx.req.HeartbeatReq? && HeartbeatInv(cfg, db, tx)
    requires Exec(cfg, key, db, held, tx, tx')
    ensures tx'.req == tx.req && HeartbeatInv(cfg, db, tx')
  {
    hide Valid, RunningCount;
    if tx.phase.Begin? && tx.req.beat.Leased() { KnownJob(db, tx.req.beat.activeJobId.value); }
    if tx.phase.WorkerLocked? {
      CountUnchanged(db.jobs, db.jobs + tx.jobWrites, tx.req.worker);
    }
  }

  lemma ClaimStatement(cfg: Config, key: string -> int, db: Store, held: set<Lock>, tx: Tx, tx': Tx)
    requires Valid(db) && tx.req.ClaimReq? && ClaimInv(cfg, db, tx)
    requires Exec(cfg, key, db, held, tx, tx')
    ensures tx'.req == tx.req && ClaimInv(cfg, db, tx')
  {
    hide Valid, WorkerMatches;
    if tx.phase.Seen? && tx'.job.Some? { KnownJob(db, tx'.job.value.jobId); }
  }

  lemma CompleteStatement(cfg: Config, key: string -> int, db: Store, held: set<Lock>, tx: Tx, tx': Tx)
    requires Valid(db) && TxInv(cfg, key, db, tx) && tx.req.CompleteReq?
    requires Exec(cfg, key, db, held, tx, tx')
    ensures tx'.req == tx.req && TxInv(cfg, key, db, tx')
  {
    hide Valid;
    if tx.req.job in db.jobs { KnownJob(db, tx.req.job); }
  }

  lemma FailStatement(cfg: Config, key: string -> int, db: Store, held: set<Lock>, tx: Tx, tx': Tx)
    requires Valid(db) && TxInv(cfg, key, db, tx) && tx.req.FailReq?
    requires Exec(cfg, key, db, held, tx, tx')
    ensures tx'.req == tx.req && TxInv(cfg, key, db, tx')
  {
    hide Valid;
    if tx.req.job in db.jobs { KnownJob(db, tx.req.job); }
  }

  lemma CancelStatement(cfg: Config, key: string -> int, db: Store, held: set<Lock>, tx: Tx, tx': Tx)
    requires Valid(db) && TxInv(cfg, key, db, tx) && tx.req.CancelReq?
    requires Exec(cfg, key, db, held, tx, tx')
    ensures tx'.req == tx.req && TxInv(cfg, key, db, tx')
  {
    hide Valid;
    if tx.req.job in db.jobs { KnownJob(db, tx.req.job); }
  }

  lemma RecoverStatement(cfg: Config, key: string -> int, db: Store, held: set<Lock>, tx: Tx, tx': Tx)
    requires Valid(db) && TxInv(cfg, key, db, tx) && tx.req.RecoverReq?
    requires Exec(cfg, key, db, held, tx, tx')
    ensures tx'.req == tx.req && TxInv(cfg, key, db, tx')
  {
    hide Valid;
    assert tx'.job.Some?;
    if tx'.job.value.jobId in db.jobs { KnownJob(db, tx'.job.value.jobId); }
  }

  lemma ExpireStatement(cfg: Config, key: string -> int, db: Store, held: set<Lock>, tx: Tx, tx': Tx)
    requires Valid(db) && tx.req.ExpireReq? && ExpireInv(cfg, db, tx)
    requires Exec(cfg, key, db, held, tx, tx')
    ensures tx'.req == tx.req && ExpireInv(cfg, db, tx')
  {
    hide Valid;
  }

  lemma SubmitStatement(cfg: Config, key: string -> int, db: Store, held: set<Lock>, tx: Tx, tx': Tx)
    requires Valid(db) && tx.req.SubmitReq? && SubmitInv(db, tx)
    requires Exec(cfg, key, db, held, tx, tx')
    ensures tx'.req == tx.req && SubmitInv(db, tx')
  {
    hide Valid;
    if tx'.phase.JobLocked? {
      var j := KeyHolder(db, tx.req.submission.idempotencyKey);
      assert HasKey(db, j, tx.req.submission.idempotencyKey);
      KnownJob(db, j);
    }
  }

  lemma StatementKeepsInv(cfg: Config, key: string -> int, db: Store, held: set<Lock>, tx: Tx, tx': Tx)
    requires Valid(db) && TxInv(cfg, key, db, tx)
    requires Exec(cfg, key, db, held, tx, tx')
    ensures tx'.req == tx.req && TxInv(cfg, key, db, tx')
  {
    hide Valid, Exec, RegisterInv, SetStateInv, HeartbeatInv, ClaimInv, EndingInv, ExpireInv, SubmitInv;
    match tx.req
    case RegisterReq(_, _) => RegisterStatement(cfg, key, db, held, tx, tx');
    case SetStateReq(_, _, _) => SetStateStatement(cfg, key, db, held, tx, tx');
    case HeartbeatReq(_, _, _) => HeartbeatStatement(cfg, key, db, held, tx, tx');
    case ClaimReq(_, _) => ClaimStatement(cfg, key, db, held, tx, tx');
    case ExpireReq(_) => ExpireStatement(cfg, key, db, held, tx, tx');
    case CompleteReq(_, _, _, _, _) => CompleteStatement(cfg, key, db, held, tx, tx');
    case FailReq(_, _, _, _, _, _) => FailStatement(cfg, key, db, held, tx, tx');
    case CancelReq(_, _) => CancelStatement(cfg, key, db, held, tx, tx');
    case RecoverReq(_) => RecoverStatement(cfg, key, db, held, tx, tx');
    case SubmitReq(_, _, _) => SubmitStatement(cfg, key, db, held, tx, tx');
  }
}
