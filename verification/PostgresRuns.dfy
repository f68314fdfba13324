/** Safety of the durable repository over every interleaving. */
module PostgresRuns {
  import opened Contracts
  import opened Scheduling
  import opened Ledger
  import opened LedgerInvariant
  import opened LedgerRuns
  import opened LedgerOutcomes
  import opened Postgres
  import opened PostgresInvariant
  import opened PostgresCommit

  ghost predicate LocksDisjoint(s: Sys) {
    forall t, u :: t in s.txs && u in s.txs && t != u ==> s.txs[t].locks !! s.txs[u].locks
  }

  ghost predicate SysInv(cfg: Config, key: string -> int, s: Sys) {
    && Valid(s.db) && LocksDisjoint(s)
    && (forall t :: t in s.txs ==> TxInv(cfg, key, s.db, s.txs[t]))
  }

  ghost predicate Grows(held: set<Lock>, tx: Tx, tx': Tx) {
    tx.locks <= tx'.locks && (tx'.locks - tx.locks) !! held
  }

  lemma OwnershipLocksGrow(cfg: Config, key: string -> int, db: Store, held: set<Lock>, tx: Tx, tx': Tx)
    requires tx.req.RegisterReq? || tx.req.SetStateReq?
    requires Exec(cfg, key, db, held, tx, tx')
    ensures Grows(held, tx, tx')
  {
    hide NoOverlap, SortedKeys, RunningCount;
  }

  lemma LeasingLocksGrow(cfg: Config, key: string -> int, db: Store, held: set<Lock>, tx: Tx, tx': Tx)
    requires tx.req.HeartbeatReq? || tx.req.ClaimReq?
    requires Exec(cfg, key, db, held, tx, tx')
    ensures Grows(held, tx, tx')
  {
    hide LeaseHeld, StaysReleased, RunningCount, Eligible, ClaimedBefore;
  }

  lemma EndingLocksGrow(cfg: Config, key: string -> int, db: Store, held: set<Lock>, tx: Tx, tx': Tx)
    requires tx.req.CompleteReq? || tx.req.FailReq? || tx.req.CancelReq? || tx.req.RecoverReq? || tx.req.ExpireReq?
    requires Exec(cfg, key, db, held, tx, tx')
    ensures Grows(held, tx, tx')
  {
    hide LeaseHeld, Expired, Release;
  }

  lemma SubmitLocksGrow(cfg: Config, key: string -> int, db: Store, held: set<Lock>, tx: Tx, tx': Tx)
    requires tx.req.SubmitReq?
    requires Exec(cfg, key, db, held, tx, tx')
    ensures Grows(held, tx, tx')
  {
    hide KeyTaken, NewJob, InsertLocks;
  }

  /** A statement keeps what the transaction holds and takes only free locks. */
  lemma LocksGrow(cfg: Config, key: string -> int, db: Store, held: set<Lock>, tx: Tx, tx': Tx)
    requires Exec(cfg, key, db, held, tx, tx')
    ensures Grows(held, tx, tx')
  {
    hide Exec, Grows;
    match tx.req
    case RegisterReq(_, _) => OwnershipLocksGrow(cfg, key, db, held, tx, tx');
    case SetStateReq(_, _, _) => OwnershipLocksGrow(cfg, key, db, held, tx, tx');
    case HeartbeatReq(_, _, _) => LeasingLocksGrow(cfg, key, db, held, tx, tx');
    case ClaimReq(_, _) => LeasingLocksGrow(cfg, key, db, held, tx, tx');
    case SubmitReq(_, _, _) => SubmitLocksGrow(cfg, key, db, held, tx, tx');
    case _ => EndingLocksGrow(cfg, key, db, held, tx, tx');
  }

  lemma StatementStep(cfg: Config, key: string -> int, s: Sys, t: nat, after: Tx)
    requires SysInv(cfg, key, s) && CanStep(cfg, key, s, Step.Statement(t, after))
    ensures SysInv(cfg, key, DoStep(cfg, key, s, Step.Statement(t, after)))
  {
    hide TxInv, Exec, Valid;
    var held := HeldByOthers(s, t);
    LocksGrow(cfg, key, s.db, held, s.txs[t], after);
    StatementKeepsInv(cfg, key, s.db, held, s.txs[t], after);
    forall u | u in s.txs && u != t ensures after.locks !! s.txs[u].locks {
      forall l | l in s.txs[u].locks ensures l !in after.locks {
        assert l in held;
      }
    }
  }

  /** A change of the tables covered by `locks`, with the invariant kept, harms nobody
      whose locks are disjoint from them. */
  lemma OthersUnharmed(cfg: Config, key: string -> int, db: Store, db': Store, locks: set<Lock>, txs: map<nat, Tx>)
    requires Valid(db) && Valid(db') && Footprint(key, db, db', locks)
    requires forall u :: u in txs ==> TxInv(cfg, key, db, txs[u]) && txs[u].locks !! locks
    ensures forall u :: u in txs ==> TxInv(cfg, key, db', txs[u])
  {
    forall u | u in txs ensures TxInv(cfg, key, db', txs[u]) {
      TxStable(cfg, key, db, db', locks, txs[u]);
    }
  }

  lemma TxKnowsEvent(cfg: Config, key: string -> int, db: Store, tx: Tx)
    requires TxInv(cfg, key, db, tx) && tx.phase.Ready?
    ensures tx.req.RecoverReq? ==> tx.job.Some?
  {
  }

  lemma CommitStep(cfg: Config, key: string -> int, s: Sys, t: nat)
    requires SysInv(cfg, key, s) && CanStep(cfg, key, s, Step.Commit(t))
    ensures SysInv(cfg, key, DoStep(cfg, key, s, Step.Commit(t)))
  {
    hide TxInv, Exec, Valid, Footprint, Enabled, Apply;
    var tx := s.txs[t];
    TxKnowsEvent(cfg, key, s.db, tx);
    CommitIsEvent(cfg, key, s.db, tx);
    EventKeepsValid(cfg, s.db, EventOf(tx));
    CommitFootprint(cfg, key, s.db, tx);
    OthersUnharmed(cfg, key, s.db, Committed(s.db, tx), tx.locks, s.txs - {t});
  }

  lemma StepKeepsInv(cfg: Config, key: string -> int, s: Sys, step: Step)
    requires SysInv(cfg, key, s) && CanStep(cfg, key, s, step)
    ensures SysInv(cfg, key, DoStep(cfg, key, s, step))
  {
    hide Exec, Valid, Enabled, Apply;
    match step
    case Start(t, req) =>
      assert TxInv(cfg, key, s.db, Opened(req));
    case Statement(t, after) => StatementStep(cfg, key, s, t, after);
    case Commit(t) => CommitStep(cfg, key, s, t);
    case Stop(t) =>
  }

  lemma {:induction false} RunKeepsInv(cfg: Config, key: string -> int, s: Sys, steps: seq<Step>)
    requires SysInv(cfg, key, s) && Runs(cfg, key, s, steps)
    ensures SysInv(cfg, key, After(cfg, key, s, steps))
    decreases |steps|
  {
    hide SysInv, CanStep, DoStep;
    if steps != [] {
      StepKeepsInv(cfg, key, s, steps[0]);
      RunKeepsInv(cfg, key, DoStep(cfg, key, s, steps[0]), steps[1..]);
    }
  }

  /** Every interleaving from the empty database, whatever the advisory keys collide
      with: no two workers that are not offline or still run jobs declare the same GPU,
      every counter is the number of jobs running there and within its limit, and running
      jobs fit their workers. */
  lemma InterleavingsAreSafe(cfg: Config, key: string -> int, steps: seq<Step>)
    requires Runs(cfg, key, INITIAL, steps)
    ensures var db := After(cfg, key, INITIAL, steps).db;
      && (forall v, w :: v != w && UsesGpus(db, v) && UsesGpus(db, w) ==> !ShareGpu(db.workers[v].spec, db.workers[w].spec))
      && (forall w :: w in db.workers ==>
            && db.workers[w].activeJobs <= db.workers[w].maxConcurrency
            && db.workers[w].activeJobs == |set j | j in db.jobs && db.jobs[j].status.Running? && db.jobs[j].assignedWorker == Some(w)|)
      && RunningFits(db)
  {
    EmptyIsValid();
    RunKeepsInv(cfg, key, INITIAL, steps);
    var db := After(cfg, key, INITIAL, steps).db;
    assert Valid(db);
    forall v, w | v != w && UsesGpus(db, v) && UsesGpus(db, w) ensures !ShareGpu(db.workers[v].spec, db.workers[w].spec) {
      GpusAreExclusive(db, v, w);
    }
    forall w | w in db.workers
      ensures db.workers[w].activeJobs <= db.workers[w].maxConcurrency
      ensures db.workers[w].activeJobs == |set j | j in db.jobs && db.jobs[j].status.Running? && db.jobs[j].assignedWorker == Some(w)|
    {
      assert RunningOn(db.jobs, w) == set j | j in db.jobs && db.jobs[j].status.Running? && db.jobs[j].assignedWorker == Some(w);
    }
  }

  // ------------------------------------------------------------ serialization

  /** The events of a run: one for each commit, in that order. */
  ghost function Events(cfg: Config, key: string -> int, s: Sys, steps: seq<Step>): seq<Event>
    requires SysInv(cfg, key, s) && Runs(cfg, key, s, steps)
    decreases |steps|
  {
    hide TxInv, Exec, Valid, LocksDisjoint, Enabled, Apply;
    if steps == [] then [] else
      StepKeepsInv(cfg, key, s, steps[0]);
      (match steps[0]
       case Commit(t) => TxKnowsEvent(cfg, key, s.db, s.txs[t]); [EventOf(s.txs[t])]
       case _ => [])
      + Events(cfg, key, DoStep(cfg, key, s, steps[0]), steps[1..])
  }

  /** Serializability: replaying the events of an interleaving one at a time, in commit
      order, is accepted and reaches the same tables. */
  lemma {:induction false} Serializable(cfg: Config, key: string -> int, s: Sys, steps: seq<Step>)
    requires SysInv(cfg, key, s) && Runs(cfg, key, s, steps)
    ensures Accepts(cfg, s.db, Events(cfg, key, s, steps))
    ensures Replay(cfg, s.db, Events(cfg, key, s, steps)) == After(cfg, key, s, steps).db
    decreases |steps|
  {
    hide TxInv, Exec, Valid, LocksDisjoint, Enabled, Apply;
    if steps != [] {
      var s' := DoStep(cfg, key, s, steps[0]);
      StepKeepsInv(cfg, key, s, steps[0]);
      var rest := Events(cfg, key, s', steps[1..]);
      Serializable(cfg, key, s', steps[1..]);
      match steps[0] {
        case Commit(t) =>
          TxKnowsEvent(cfg, key, s.db, s.txs[t]);
          CommitIsEvent(cfg, key, s.db, s.txs[t]);
          assert ([EventOf(s.txs[t])] + rest)[1..] == rest;
        case _ =>
          assert [] + rest == rest;
      }
    }
  }

  /** In every interleaving from the empty database each job row and each worker row is
      explained by the events committed, in the order of their commits. */
  lemma InterleavingsAreExplained(cfg: Config, key: string -> int, steps: seq<Step>)
    requires Runs(cfg, key, INITIAL, steps)
    ensures SysInv(cfg, key, INITIAL)
    ensures var db, es := After(cfg, key, INITIAL, steps).db, Events(cfg, key, INITIAL, steps);
      WorkersExplained(db, es) && forall j :: j in db.jobs ==> Explained(cfg, es, db.jobs[j], j)
  {
    EmptyIsValid();
    Serializable(cfg, key, INITIAL, steps);
    hide Runs, After, Events, Accepts, Replay, Explained, WorkersExplained;
    var es := Events(cfg, key, INITIAL, steps);
    WorkersAreExplained(cfg, es);
    forall j | j in After(cfg, key, INITIAL, steps).db.jobs
      ensures Explained(cfg, es, After(cfg, key, INITIAL, steps).db.jobs[j], j)
    {
      RowsAreExplained(cfg, es, j);
    }
  }

  /** A committed claim or renewal gives the lease for exactly the configured time: in the
      tables it leaves, the job answers to its worker and token until then and to recovery
      from then on. */
  lemma CommittedGrants(cfg: Config, key: string -> int, s: Sys, t: nat, j: string, w: string, token: string)
    requires SysInv(cfg, key, s) && CanStep(cfg, key, s, Step.Commit(t))
    requires s.txs[t].req.ClaimReq? || s.txs[t].req.HeartbeatReq?
    requires Grants(EventOf(s.txs[t]), j, w, token)
    ensures var db := DoStep(cfg, key, s, Step.Commit(t)).db;
            var deadline := s.txs[t].req.now + cfg.lease;
            j in db.jobs && LeaseUntil(db.jobs[j], w, token, deadline) && AnswersTo(cfg, db, j, w, token, deadline)
  {
    hide Enabled, Apply, Valid, Committed, AnswersTo, LeaseUntil;
    CommitIsEvent(cfg, key, s.db, s.txs[t]);
    GrantsRunForTheLease(cfg, s.db, EventOf(s.txs[t]), j, w, token);
  }

  /** The claim of a queued and eligible job for a fresh online worker with room, under a
      new token, and what it leaves behind. */
  ghost predicate SoundClaim(cfg: Config, db: Store, db': Store, w: string, j: string, token: string, now: int) {
    && w in db.workers && j in db.jobs && w in db'.workers && j in db'.jobs
    && db.workers[w].state.Online? && now - db.workers[w].lastSeenAt <= cfg.workerTtl
    && db.workers[w].activeJobs < db.workers[w].maxConcurrency
    && db.jobs[j].status.Queued? && db.jobs[j].availableAt <= now && db.jobs[j].attempts < db.jobs[j].maxAttempts
    && db.jobs[j].capability in db.workers[w].spec.capabilities
    && WorkerMatches(db.workers[w].spec, db.jobs[j].requirements)
    && token !in db.tokens
    && LeaseUntil(db'.jobs[j], w, token, now + cfg.lease) && AnswersTo(cfg, db', j, w, token, now + cfg.lease)
    && db'.workers[w].activeJobs == db.workers[w].activeJobs + 1
  }

  ghost predicate NobodyElseHolds(s: Sys, t: nat, l: Lock) {
    forall u :: u in s.txs && u != t ==> l !in s.txs[u].locks
  }

  lemma ClaimIsSound(cfg: Config, s: Store, e: Event)
    requires e.Claim? && Enabled(cfg, s, e)
    ensures SoundClaim(cfg, s, Apply(cfg, s, e), e.worker, e.job, e.token, e.now)
  {
    assert Grants(e, e.job, e.worker, e.token);
    GrantsRunForTheLease(cfg, s, e, e.job, e.worker, e.token);
    hide WorkerMatches, AnswersTo;
  }

  /** A claim commits only a job that is queued and eligible at that moment, on a fresh
      online worker with room; no other live transaction has that job in hand. */
  lemma ClaimsAreSound(cfg: Config, key: string -> int, s: Sys, t: nat)
    requires SysInv(cfg, key, s) && CanStep(cfg, key, s, Step.Commit(t))
    requires s.txs[t].req.ClaimReq? && s.txs[t].job.Some?
    ensures var tx := s.txs[t];
            SoundClaim(cfg, s.db, DoStep(cfg, key, s, Step.Commit(t)).db, tx.req.worker, tx.job.value.jobId, tx.token, tx.req.now)
            && NobodyElseHolds(s, t, JobRow(tx.job.value.jobId))
  {
    hide Enabled, Apply, Valid, SoundClaim, Committed;
    var tx := s.txs[t];
    CommitIsEvent(cfg, key, s.db, tx);
    ClaimIsSound(cfg, s.db, EventOf(tx));
    forall u | u in s.txs && u != t ensures JobRow(tx.job.value.jobId) !in s.txs[u].locks {
      assert tx.locks !! s.txs[u].locks;
    }
  }

  /** The bulk expiry takes only workers offline that were past their time to live and not
      offline yet when it commits.  A claim goes by the row it read when it started: it takes
      its worker offline although the worker may have been heard from in between. */
  lemma OfflineMeansStale(cfg: Config, key: string -> int, s: Sys, t: nat, w: string)
    requires SysInv(cfg, key, s) && CanStep(cfg, key, s, Step.Commit(t))
    requires s.txs[t].req.ExpireReq? || (s.txs[t].req.ClaimReq? && s.txs[t].job.None?)
    requires w in EventOf(s.txs[t]).stale
    ensures s.txs[t].req.ExpireReq? ==>
              w in s.db.workers && !s.db.workers[w].state.Offline? && s.txs[t].req.now - s.db.workers[w].lastSeenAt > cfg.workerTtl
    ensures s.txs[t].req.ClaimReq? ==>
              && w == s.txs[t].req.worker && s.txs[t].worker.Some?
              && s.txs[t].req.now - s.txs[t].worker.value.lastSeenAt > cfg.workerTtl
  {
    hide Valid;
    assert TxInv(cfg, key, s.db, s.txs[t]);
  }

  // ----------------------------------------------------------------- submission

  /** What a submission that has found a row, or inserted one, is about to answer. */
  function Answer(tx: Tx): SubmitOutcome
    requires tx.req.SubmitReq? && (tx.phase.JobLocked? ==> tx.job.Some?)
  {
    if !tx.phase.JobLocked? then Fresh
    else if SubmissionMatches(tx.job.value, tx.req.submission) then Replayed(tx.job.value.jobId)
    else Clash
  }

  /** Whatever other submissions of the same key do in between, a submission answers what
      submitting at this very moment would do: the job it inserts is the first with its key,
      a row it found is the one job with that key; and after a conflict the second lookup
      finds a job, so a conflicting insert never turns out not to have persisted. */
  lemma SubmissionsAnswer(cfg: Config, key: string -> int, s: Sys, t: nat)
    requires SysInv(cfg, key, s) && t in s.txs && s.txs[t].req.SubmitReq?
    ensures var tx := s.txs[t]; var sub := tx.req.submission;
            && (tx.phase.JobLocked? ==> tx.job.Some?)
            && (tx.phase.JobLocked? || tx.phase.Ready? ==> SubmitResult(s.db, sub) == Answer(tx))
            && (tx.phase.Checked? ==> KeyTaken(s.db, sub.idempotencyKey))
  {
    var tx := s.txs[t];
    var sub := tx.req.submission;
    assert TxInv(cfg, key, s.db, tx);
    if tx.phase.JobLocked? {
      KeyFindsJob(s.db, sub, tx.job.value.jobId);
    } else if tx.phase.Ready? {
      forall j | j in s.db.jobs && sub.idempotencyKey.Some? ensures s.db.jobs[j].idempotencyKey != sub.idempotencyKey {
        assert !HasKey(s.db, j, sub.idempotencyKey);
      }
    }
  }

  /** Of two open submissions with one key at most one is about to insert. */
  lemma OneInsertPerKey(cfg: Config, key: string -> int, s: Sys, t: nat, u: nat)
    requires SysInv(cfg, key, s) && t in s.txs && u in s.txs && t != u
    requires s.txs[t].req.SubmitReq? && s.txs[u].req.SubmitReq? && s.txs[t].phase.Ready? && s.txs[u].phase.Ready?
    ensures var a, b := s.txs[t].req.submission.idempotencyKey, s.txs[u].req.submission.idempotencyKey;
            a.Some? ==> a != b
  {
    hide TxInv, Valid;
    InsertHoldsKey(cfg, key, s.db, s.txs[t]);
    InsertHoldsKey(cfg, key, s.db, s.txs[u]);
    assert s.txs[t].locks !! s.txs[u].locks;
  }

  lemma InsertHoldsKey(cfg: Config, key: string -> int, db: Store, tx: Tx)
    requires TxInv(cfg, key, db, tx) && tx.req.SubmitReq? && tx.phase.Ready?
    ensures var k := tx.req.submission.idempotencyKey; k.Some? ==> UniqueKey(k.value) in tx.locks
  {
    hide FreshRow;
    var k := tx.req.submission.idempotencyKey;
    if k.Some? { assert UniqueKey(k.value) in InsertLocks(tx.req.job, k, tx.count); }
  }

  /** Fencing holds across processes: once no job runs under an issued token, no
      transaction that presents it commits in any continuation. */
  lemma FencingAcrossTransactions(cfg: Config, key: string -> int, s: Sys, steps: seq<Step>, token: string)
    requires SysInv(cfg, key, s) && Runs(cfg, key, s, steps)
    requires token in s.db.tokens && !Live(s.db, token)
    ensures forall i :: 0 <= i < |Events(cfg, key, s, steps)| ==> !Presents(Events(cfg, key, s, steps)[i], token)
  {
    Serializable(cfg, key, s, steps);
    Fencing(cfg, s.db, Events(cfg, key, s, steps), token);
  }
}
