/** Commits of the durable repository: each is an atomic event of the ledger, and
    each changes only what the committer's locks cover. */
module PostgresCommit {
  import opened Contracts
  import opened Ledger
  import opened LedgerInvariant
  import opened LedgerRuns
  import opened Postgres
  import opened PostgresInvariant

  // -------------------------------------------------- a commit is one event

  /** The writes of a ready transaction are exactly the effect of its event on the
      rows committed now, and the event is enabled now. */
  ghost predicate IsEvent(cfg: Config, db: Store, tx: Tx)
    requires tx.req.RecoverReq? ==> tx.job.Some?
  {
    Enabled(cfg, db, EventOf(tx)) && Committed(db, tx) == Apply(cfg, db, EventOf(tx))
  }

  lemma PutOne<K, V>(m: map<K, V>, k: K, v: V)
    ensures m + map[k := v] == m[k := v]
  {
  }

  lemma PutNone<K, V>(m: map<K, V>)
    ensures m + map[] == m
  {
  }

  lemma WorkerOnly(db: Store, tx: Tx, w: string, r: WorkerRecord)
    requires tx.workerWrites == map[w := r] && tx.jobWrites == map[] && tx.token == ""
    ensures Committed(db, tx) == db.(workers := db.workers[w := r])
  {
    PutOne(db.workers, w, r);
    PutNone(db.jobs);
  }

  lemma WorkerAndJob(db: Store, tx: Tx, w: string, r: WorkerRecord, j: string, row: JobRecord)
    requires tx.workerWrites == map[w := r] && tx.jobWrites == map[j := row]
    ensures Committed(db, tx) == Store(db.workers[w := r], db.jobs[j := row], if tx.token == "" then db.tokens else db.tokens + {tx.token})
  {
    PutOne(db.workers, w, r);
    PutOne(db.jobs, j, row);
  }

  lemma JobOnly(db: Store, tx: Tx, j: string, row: JobRecord)
    requires tx.workerWrites == map[] && tx.jobWrites == map[j := row] && tx.token == ""
    ensures Committed(db, tx) == db.(jobs := db.jobs[j := row])
  {
    PutNone(db.workers);
    PutOne(db.jobs, j, row);
  }

  lemma RegisterCommit(cfg: Config, key: string -> int, db: Store, tx: Tx)
    requires tx.req.RegisterReq? && RegisterInv(key, db, tx) && tx.phase.Ready?
    ensures IsEvent(cfg, db, tx)
  {
    WorkerOnly(db, tx, tx.req.registration.spec.workerId, Enrolled(db, tx.req.registration, tx.req.now));
  }

  lemma SetStateCommit(cfg: Config, key: string -> int, db: Store, tx: Tx)
    requires tx.req.SetStateReq? && SetStateInv(key, db, tx) && tx.phase.Ready?
    ensures IsEvent(cfg, db, tx)
  {
    WorkerOnly(db, tx, tx.req.worker, db.workers[tx.req.worker].(state := tx.req.state, lastSeenAt := tx.req.now));
  }

  lemma HeartbeatCommit(cfg: Config, db: Store, tx: Tx)
    requires tx.req.HeartbeatReq? && HeartbeatInv(cfg, db, tx) && tx.phase.Ready?
    ensures IsEvent(cfg, db, tx)
  {
    var HeartbeatReq(w, beat, now) := tx.req;
    var r := Beaten(db.workers[w], beat, tx.count, now);
    if beat.Leased() {
      var j := beat.activeJobId.value;
      var row := Renewed(db.jobs[j], now, cfg.lease);
      WorkerAndJob(db, tx, w, r, j, row);
      CountUnchanged(db.jobs, db.jobs[j := row], w);
    } else {
      WorkerOnly(db, tx, w, r);
    }
  }

  lemma ClaimCommit(cfg: Config, db: Store, tx: Tx)
    requires tx.req.ClaimReq? && ClaimInv(cfg, db, tx) && tx.phase.Ready?
    ensures IsEvent(cfg, db, tx)
  {
    var w := tx.req.worker;
    if tx.job.None? {
      WorkerOnly(db, tx, w, db.workers[w].(state := Offline));
      assert db.workers[w := db.workers[w].(state := Offline)] == AllOffline(db.workers, {w});
    } else {
      WorkerAndJob(db, tx, w, db.workers[w].(activeJobs := db.workers[w].activeJobs + 1),
                   tx.job.value.jobId, Claimed(tx.job.value, w, tx.token, tx.req.now, cfg.lease));
    }
  }

  /** The new job row of an ending request. */
  function EndingRow(tx: Tx): JobRecord
    requires tx.job.Some?
    requires tx.req.CompleteReq? || tx.req.FailReq? || tx.req.CancelReq? || tx.req.RecoverReq?
  {
    var job := tx.job.value;
    match tx.req
    case CompleteReq(_, result, _, _, now) => Completed(job, result, now)
    case FailReq(_, message, retryable, _, _, now) => Retried(job, retryable && job.attempts < job.maxAttempts, message, now)
    case CancelReq(_, now) => Dropped(job, now)
    case RecoverReq(now) => Recovered(job, now)
  }

  /** All four ending requests, once ready, say the same thing about the rows. */
  lemma EndingReady(cfg: Config, key: string -> int, db: Store, tx: Tx)
    requires TxInv(cfg, key, db, tx) && tx.phase.Ready?
    requires tx.req.CompleteReq? || tx.req.FailReq? || tx.req.CancelReq? || tx.req.RecoverReq?
    ensures tx.job.Some? && HoldsJob(db, tx, tx.job.value.jobId) && tx.token == ""
    ensures tx.jobWrites == map[tx.job.value.jobId := EndingRow(tx)] && !EndingRow(tx).status.Running?
    ensures EndingRow(tx).assignedWorker.None?
    ensures !tx.job.value.status.Running? ==> tx.req.CancelReq? && tx.workerWrites == map[]
    ensures tx.job.value.status.Running? ==>
      && tx.job.value.assignedWorker.Some? && tx.job.value.assignedWorker.value in db.workers
      && WorkerRow(tx.job.value.assignedWorker.value) in tx.locks
      && var w := tx.job.value.assignedWorker.value;
         tx.workerWrites == map[w := Release(db.workers, Some(w))[w]]
  {
  }

  lemma EndingCommit(cfg: Config, key: string -> int, db: Store, tx: Tx)
    requires TxInv(cfg, key, db, tx) && tx.phase.Ready?
    requires tx.req.CompleteReq? || tx.req.FailReq? || tx.req.CancelReq? || tx.req.RecoverReq?
    ensures IsEvent(cfg, db, tx)
  {
    EndingReady(cfg, key, db, tx);
    var j := tx.job.value.jobId;
    if tx.job.value.status.Running? {
      var w := tx.job.value.assignedWorker.value;
      WorkerAndJob(db, tx, w, Release(db.workers, Some(w))[w], j, EndingRow(tx));
      assert Release(db.workers, Some(w)) == db.workers[w := Release(db.workers, Some(w))[w]];
    } else {
      JobOnly(db, tx, j, EndingRow(tx));
    }
  }

  lemma ExpireCommit(cfg: Config, db: Store, tx: Tx)
    requires tx.req.ExpireReq? && ExpireInv(cfg, db, tx) && tx.phase.Ready?
    ensures IsEvent(cfg, db, tx)
  {
    PutNone(db.jobs);
    assert db.workers + tx.workerWrites == AllOffline(db.workers, tx.workerWrites.Keys);
  }

  lemma SubmitCommit(cfg: Config, db: Store, tx: Tx)
    requires tx.req.SubmitReq? && SubmitInv(db, tx) && tx.phase.Ready?
    ensures IsEvent(cfg, db, tx)
  {
    var SubmitReq(j, sub, now) := tx.req;
    forall i | i in db.jobs && sub.idempotencyKey.Some? ensures db.jobs[i].idempotencyKey != sub.idempotencyKey {
      assert !HasKey(db, i, sub.idempotencyKey);
    }
    JobOnly(db, tx, j, NewJob(j, sub, tx.count, now));
  }

  /** Linearization: the commit of any ready transaction is its event, enabled there and then. */
  lemma CommitIsEvent(cfg: Config, key: string -> int, db: Store, tx: Tx)
    requires TxInv(cfg, key, db, tx) && tx.phase.Ready?
    ensures IsEvent(cfg, db, tx)
  {
    hide IsEvent, RegisterInv, SetStateInv, HeartbeatInv, ClaimInv, EndingInv, ExpireInv, SubmitInv;
    match tx.req
    case RegisterReq(_, _) => RegisterCommit(cfg, key, db, tx);
    case SetStateReq(_, _, _) => SetStateCommit(cfg, key, db, tx);
    case HeartbeatReq(_, _, _) => HeartbeatCommit(cfg, db, tx);
    case ClaimReq(_, _) => ClaimCommit(cfg, db, tx);
    case ExpireReq(_) => ExpireCommit(cfg, db, tx);
    case SubmitReq(_, _, _) => SubmitCommit(cfg, db, tx);
    case _ => EndingCommit(cfg, key, db, tx);
  }

  // -------------------------------------------------- footprint of a change

  /** What `locks` allow a change to touch: rows need their row lock, the existence
      and spec of a worker its identity lock, the number of jobs running on a worker its row
      lock, a new owner or a new GPU set the advisory locks of its GPUs, and a new job the
      locks of its row, number and key. */
  ghost predicate Footprint(key: string -> int, db: Store, db': Store, locks: set<Lock>) {
    && db.workers.Keys <= db'.workers.Keys && db.jobs.Keys <= db'.jobs.Keys
    && (forall w :: w in db.workers && WorkerRow(w) !in locks ==> db'.workers[w] == db.workers[w])
    && (forall w :: Identity(key(w)) !in locks && w in db'.workers ==> w in db.workers && db'.workers[w].spec == db.workers[w].spec)
    && (forall j :: j in db.jobs && JobRow(j) !in locks ==> db'.jobs[j] == db.jobs[j])
    && (forall w :: WorkerRow(w) !in locks ==> RunningCount(db'.jobs, w) == RunningCount(db.jobs, w))
    && (forall w :: w in db'.workers && Owns(db'.workers[w]) ==>
          || (w in db.workers && Owns(db.workers[w]) && db'.workers[w].spec == db.workers[w].spec)
          || (forall g :: g in Gpus(db'.workers[w].spec) ==> Gpu(key(g)) in locks))
    && (forall token :: token in db'.tokens ==> token in db.tokens || Uuid(token) in locks)
    && RowsInserted(db, db', locks)
  }

  ghost predicate RowsInserted(db: Store, db': Store, locks: set<Lock>) {
    && (forall j :: j in db.jobs ==> j in db'.jobs && SameKey(db.jobs[j], db'.jobs[j]))
    && (forall j :: j in db'.jobs && j !in db.jobs ==>
          InsertLocks(j, db'.jobs[j].idempotencyKey, db'.jobs[j].sequence) <= locks)
  }

  predicate SameKey(a: JobRecord, b: JobRecord) {
    a.sequence == b.sequence && a.idempotencyKey == b.idempotencyKey
  }

  /** Writes of existing rows under row locks that create no owner and move running
      jobs only between locked workers. */
  ghost predicate LockedWrites(db: Store, tx: Tx) {
    && (forall w :: w in tx.workerWrites ==>
          && WorkerRow(w) in tx.locks && w in db.workers && tx.workerWrites[w].spec == db.workers[w].spec
          && (Owns(tx.workerWrites[w]) ==> Owns(db.workers[w])))
    && (forall j :: j in tx.jobWrites ==> j in db.jobs && JobRow(j) in tx.locks && SameKey(db.jobs[j], tx.jobWrites[j]))
    && (forall j, w :: j in tx.jobWrites && WorkerRow(w) !in tx.locks ==> (RunsOn(tx.jobWrites[j], w) <==> RunsOn(db.jobs[j], w)))
    && (tx.token != "" ==> Uuid(tx.token) in tx.locks)
  }

  lemma LockedWritesFootprint(key: string -> int, db: Store, tx: Tx)
    requires LockedWrites(db, tx)
    ensures Footprint(key, db, Committed(db, tx), tx.locks)
  {
    var db' := Committed(db, tx);
    forall w | WorkerRow(w) !in tx.locks ensures RunningCount(db'.jobs, w) == RunningCount(db.jobs, w) {
      CountUnchanged(db.jobs, db'.jobs, w);
    }
  }

  lemma RegisterFootprint(key: string -> int, db: Store, tx: Tx)
    requires tx.req.RegisterReq? && RegisterInv(key, db, tx) && tx.phase.Ready?
    ensures Footprint(key, db, Committed(db, tx), tx.locks)
  {
    var reg := tx.req.registration;
    WorkerOnly(db, tx, reg.spec.workerId, Enrolled(db, reg, tx.req.now));
    forall g | g in Gpus(reg.spec) ensures Gpu(key(g)) in tx.locks {
      assert g in Gpus(reg.spec) + KnownGpus(tx.topology);
    }
  }

  lemma SetStateFootprint(key: string -> int, db: Store, tx: Tx)
    requires tx.req.SetStateReq? && SetStateInv(key, db, tx) && tx.phase.Ready?
    ensures Footprint(key, db, Committed(db, tx), tx.locks)
  {
    var w := tx.req.worker;
    WorkerOnly(db, tx, w, db.workers[w].(state := tx.req.state, lastSeenAt := tx.req.now));
    forall g | g in Gpus(db.workers[w].spec) ensures Gpu(key(g)) in tx.locks {
      assert g in {} + KnownGpus(tx.topology);
    }
  }

  /** The recount equals the cached counter, so a released worker stays released. */
  lemma HeartbeatWrites(cfg: Config, db: Store, tx: Tx)
    requires tx.req.HeartbeatReq? && HeartbeatInv(cfg, db, tx) && tx.phase.Ready?
    requires db.workers[tx.req.worker].activeJobs == RunningCount(db.jobs, tx.req.worker)
    ensures LockedWrites(db, tx)
  {
  }

  lemma ClaimWrites(cfg: Config, db: Store, tx: Tx)
    requires tx.req.ClaimReq? && ClaimInv(cfg, db, tx) && tx.phase.Ready?
    ensures LockedWrites(db, tx)
  {
  }

  lemma EndingWrites(cfg: Config, key: string -> int, db: Store, tx: Tx)
    requires TxInv(cfg, key, db, tx) && tx.phase.Ready?
    requires tx.req.CompleteReq? || tx.req.FailReq? || tx.req.CancelReq? || tx.req.RecoverReq?
    ensures LockedWrites(db, tx)
  {
    EndingReady(cfg, key, db, tx);
  }

  lemma ExpireWrites(cfg: Config, db: Store, tx: Tx)
    requires tx.req.ExpireReq? && ExpireInv(cfg, db, tx)
    ensures LockedWrites(db, tx)
  {
  }

  lemma SubmitFootprint(key: string -> int, db: Store, tx: Tx)
    requires tx.req.SubmitReq? && SubmitInv(db, tx) && tx.phase.Ready?
    ensures Footprint(key, db, Committed(db, tx), tx.locks)
  {
    var SubmitReq(j, sub, now) := tx.req;
    JobOnly(db, tx, j, NewJob(j, sub, tx.count, now));
    forall w ensures RunningCount(Committed(db, tx).jobs, w) == RunningCount(db.jobs, w) {
      CountUnchanged(db.jobs, Committed(db, tx).jobs, w);
    }
    hide RunningCount, KeyTaken;
  }

  lemma CommitFootprint(cfg: Config, key: string -> int, db: Store, tx: Tx)
    requires Valid(db) && TxInv(cfg, key, db, tx) && tx.phase.Ready?
    ensures Footprint(key, db, Committed(db, tx), tx.locks)
  {
    hide Valid, Footprint, LockedWrites, RegisterInv, SetStateInv, ClaimInv, EndingInv, ExpireInv, SubmitInv;
    match tx.req
    case RegisterReq(_, _) => RegisterFootprint(key, db, tx);
    case SetStateReq(_, _, _) => SetStateFootprint(key, db, tx);
    case HeartbeatReq(w, _, _) =>
      CounterAt(db, w);
      HeartbeatWrites(cfg, db, tx);
      LockedWritesFootprint(key, db, tx);
    case ClaimReq(_, _) => ClaimWrites(cfg, db, tx); LockedWritesFootprint(key, db, tx);
    case ExpireReq(_) => ExpireWrites(cfg, db, tx); LockedWritesFootprint(key, db, tx);
    case SubmitReq(_, _, _) => SubmitFootprint(key, db, tx);
    case _ => EndingWrites(cfg, key, db, tx); LockedWritesFootprint(key, db, tx);
  }

  // ------------------------------------------------ others' commits are harmless

  /** Another transaction's change cannot introduce an owner of a GPU whose advisory
      key is held here, even when unrelated identities share the key. */
  lemma OverlapStable(key: string -> int, db: Store, db': Store, locks: set<Lock>, mine: set<Lock>, w: string, gpus: set<string>)
    requires Footprint(key, db, db', locks) && mine !! locks
    requires NoOverlap(db.workers, w, gpus)
    requires forall g :: g in gpus ==> Gpu(key(g)) in mine
    ensures NoOverlap(db'.workers, w, gpus)
  {
    forall v | v in db'.workers && v != w && Owns(db'.workers[v]) ensures Gpus(db'.workers[v].spec) !! gpus {
      if !(v in db.workers && Owns(db.workers[v]) && db'.workers[v].spec == db.workers[v].spec) {
        forall g | g in Gpus(db'.workers[v].spec) ensures g !in gpus {
          assert Gpu(key(g)) in locks;
        }
      }
    }
  }

  lemma OwnershipStable(key: string -> int, db: Store, db': Store, locks: set<Lock>, tx: Tx, w: string, requested: set<string>)
    requires Footprint(key, db, db', locks) && tx.locks !! locks
    requires OwnershipInv(key, db, tx, w, requested)
    ensures OwnershipInv(key, db', tx, w, requested)
  {
  }

  /** What the topology a transaction has read says about the row it holds. */
  lemma OwnRowStable(key: string -> int, db: Store, db': Store, locks: set<Lock>, tx: Tx, w: string, requested: set<string>)
    requires Footprint(key, db, db', locks) && tx.locks !! locks && OwnershipInv(key, db, tx, w, requested)
    requires !tx.phase.Begin? && !tx.phase.Identified? && !tx.phase.Locking?
    ensures w in db.workers <==> w in db'.workers
    ensures w in db.workers ==> db'.workers[w] == db.workers[w] && RunningCount(db'.jobs, w) == RunningCount(db.jobs, w)
  {
    hide RunningCount, Gpus;
  }

  lemma UnknownStaysIdle(db: Store, db': Store, w: string)
    requires Valid(db) && Valid(db') && w !in db.workers && w !in db'.workers
    ensures RunningCount(db'.jobs, w) == RunningCount(db.jobs, w)
  {
    hide Valid, RunningCount;
    IdleWorker(db, w);
    IdleWorker(db', w);
  }

  lemma RegisterStable(cfg: Config, key: string -> int, db: Store, db': Store, locks: set<Lock>, tx: Tx)
    requires Valid(db) && Valid(db') && Footprint(key, db, db', locks) && tx.locks !! locks
    requires tx.req.RegisterReq? && RegisterInv(key, db, tx)
    ensures RegisterInv(key, db', tx)
  {
    hide Valid, Footprint, OwnershipInv, NoOverlap, RunningCount, Gpus;
    var reg, w := tx.req.registration, tx.req.registration.spec.workerId;
    OwnershipStable(key, db, db', locks, tx, w, Gpus(reg.spec));
    if tx.phase.Checked? || tx.phase.Counted? || tx.phase.Ready? {
      OwnRowStable(key, db, db', locks, tx, w, Gpus(reg.spec));
      KeysHeld(key, db, tx, w, Gpus(reg.spec));
      OverlapStable(key, db, db', locks, tx.locks, w, Gpus(reg.spec));
      if w !in db'.workers { UnknownStaysIdle(db, db', w); }
    }
  }

  /** Past the locking phase every requested GPU key is held. */
  lemma KeysHeld(key: string -> int, db: Store, tx: Tx, w: string, requested: set<string>)
    requires OwnershipInv(key, db, tx, w, requested)
    requires !tx.phase.Begin? && !tx.phase.Identified? && !tx.phase.Locking?
    ensures forall g :: g in requested ==> Gpu(key(g)) in tx.locks
    ensures w in db.workers ==> forall g :: g in Gpus(db.workers[w].spec) ==> Gpu(key(g)) in tx.locks
  {
    hide Gpus;
    forall g | g in requested ensures Gpu(key(g)) in tx.locks { assert g in requested + KnownGpus(tx.topology); }
    if w in db.workers {
      forall g | g in Gpus(db.workers[w].spec) ensures Gpu(key(g)) in tx.locks {
        assert g in requested + KnownGpus(tx.topology);
      }
    }
  }

  lemma SetStateStable(key: string -> int, db: Store, db': Store, locks: set<Lock>, tx: Tx)
    requires Footprint(key, db, db', locks) && tx.locks !! locks
    requires tx.req.SetStateReq? && SetStateInv(key, db, tx)
    ensures SetStateInv(key, db', tx)
  {
    hide Footprint, OwnershipInv, NoOverlap, Gpus;
    var w := tx.req.worker;
    OwnershipStable(key, db, db', locks, tx, w, {});
    if tx.phase.Checked? || tx.phase.Ready? {
      OwnRowStable(key, db, db', locks, tx, w, {});
      KeysHeld(key, db, tx, w, {});
      if !tx.req.state.Offline? { OverlapStable(key, db, db', locks, tx.locks, w, Gpus(db.workers[w].spec)); }
    }
  }

  lemma HeartbeatStable(cfg: Config, key: string -> int, db: Store, db': Store, locks: set<Lock>, tx: Tx)
    requires Footprint(key, db, db', locks) && tx.locks !! locks
    requires tx.req.HeartbeatReq? && HeartbeatInv(cfg, db, tx)
    ensures HeartbeatInv(cfg, db', tx)
  {
  }

  lemma ClaimStable(cfg: Config, key: string -> int, db: Store, db': Store, locks: set<Lock>, tx: Tx)
    requires Footprint(key, db, db', locks) && tx.locks !! locks
    requires tx.req.ClaimReq? && ClaimInv(cfg, db, tx)
    ensures ClaimInv(cfg, db', tx)
  {
  }

  lemma EndingStable(key: string -> int, db: Store, db': Store, locks: set<Lock>, tx: Tx, j: string, row: JobRecord, pre: bool)
    requires Footprint(key, db, db', locks) && tx.locks !! locks
    requires tx.job.Some? && EndingInv(db, tx, j, row, pre)
    ensures EndingInv(db', tx, j, row, pre)
  {
  }

  lemma ExpireStable(cfg: Config, key: string -> int, db: Store, db': Store, locks: set<Lock>, tx: Tx)
    requires Footprint(key, db, db', locks) && tx.locks !! locks && tx.req.ExpireReq? && ExpireInv(cfg, db, tx)
    ensures ExpireInv(cfg, db', tx)
  {
  }

  /** A row that is new here cannot clash with one another transaction inserts: their rows,
      numbers and keys are locked apart. */
  lemma FreshStable(db: Store, db': Store, locks: set<Lock>, mine: set<Lock>, j: string, key: Option<string>, sequence: int)
    requires RowsInserted(db, db', locks) && mine !! locks
    requires FreshRow(db, j, key, sequence) && InsertLocks(j, key, sequence) <= mine
    ensures FreshRow(db', j, key, sequence)
  {
    assert JobRow(j) in mine && Sequence(sequence) in mine;
    assert j !in db'.jobs;
    forall i | i in db'.jobs ensures db'.jobs[i].sequence != sequence {
      if i !in db.jobs { assert Sequence(db'.jobs[i].sequence) in locks; }
    }
    if key.Some? {
      assert UniqueKey(key.value) in mine;
      forall i ensures !HasKey(db', i, key) {
        if i in db.jobs {
          assert !HasKey(db, i, key);
        } else if i in db'.jobs && db'.jobs[i].idempotencyKey.Some? {
          assert UniqueKey(db'.jobs[i].idempotencyKey.value) in locks;
        }
      }
    }
  }

  lemma TakenStays(db: Store, db': Store, locks: set<Lock>, key: Option<string>)
    requires RowsInserted(db, db', locks) && KeyTaken(db, key)
    ensures KeyTaken(db', key)
  {
    var i :| HasKey(db, i, key);
    assert HasKey(db', i, key);
  }

  lemma SubmitStable(key: string -> int, db: Store, db': Store, locks: set<Lock>, tx: Tx)
    requires Footprint(key, db, db', locks) && tx.locks !! locks
    requires tx.req.SubmitReq? && SubmitInv(db, tx)
    ensures SubmitInv(db', tx)
  {
    hide RowsInserted, KeyTaken, RunningCount, InsertLocks;
    var SubmitReq(j, sub, now) := tx.req;
    if tx.phase.Ready? { FreshStable(db, db', locks, tx.locks, j, sub.idempotencyKey, tx.count); }
    if tx.phase.Checked? { TakenStays(db, db', locks, sub.idempotencyKey); }
    hide FreshRow;
  }

  /** A change covered by foreign locks leaves every other transaction's knowledge true. */
  lemma TxStable(cfg: Config, key: string -> int, db: Store, db': Store, locks: set<Lock>, tx: Tx)
    requires Valid(db) && Valid(db') && Footprint(key, db, db', locks) && tx.locks !! locks
    requires TxInv(cfg, key, db, tx)
    ensures TxInv(cfg, key, db', tx)
  {
    hide Valid, Footprint, RegisterInv, SetStateInv, HeartbeatInv, ClaimInv, EndingInv, ExpireInv, SubmitInv;
    match tx.req
    case RegisterReq(_, _) => RegisterStable(cfg, key, db, db', locks, tx);
    case SetStateReq(_, _, _) => SetStateStable(key, db, db', locks, tx);
    case HeartbeatReq(_, _, _) => HeartbeatStable(cfg, key, db, db', locks, tx);
    case ClaimReq(_, _) => ClaimStable(cfg, key, db, db', locks, tx);
    case ExpireReq(_) => ExpireStable(cfg, key, db, db', locks, tx);
    case SubmitReq(_, _, _) => SubmitStable(key, db, db', locks, tx);
    case CompleteReq(j, result, w, token, now) =>
      if !tx.phase.Begin? {
        EndingStable(key, db, db', locks, tx, j, Completed(tx.job.value, result, now), LeaseHeld(tx.job.value, w, token, now));
      }
    case FailReq(j, message, retryable, w, token, now) =>
      if !tx.phase.Begin? {
        EndingStable(key, db, db', locks, tx, j,
                     Retried(tx.job.value, retryable && tx.job.value.attempts < tx.job.value.maxAttempts, message, now),
                     LeaseHeld(tx.job.value, w, token, now));
      }
    case CancelReq(j, now) =>
      if !tx.phase.Begin? {
        EndingStable(key, db, db', locks, tx, j, Dropped(tx.job.value, now), !tx.job.value.status.Terminal());
      }
    case RecoverReq(now) =>
      if !tx.phase.Begin? {
        EndingStable(key, db, db', locks, tx, tx.job.value.jobId, Recovered(tx.job.value, now), Expired(tx.job.value, now));
      }
  }
}
