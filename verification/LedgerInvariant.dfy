/** Every accepted event keeps the control-plane invariant.  The clauses lean on
    each other: GPU exclusivity needs the cached counter to be exact, the counter
    needs the lease fields to follow the status, and "a running job fits its worker"
    needs the counter to refuse a change of shape. */
module LedgerInvariant {
  import opened Contracts
  import opened Scheduling
  import opened Ledger

  // ------------------------------------------------------- job rows on their own

  /** A job row replaced by one with the same identity, key and requirements. */
  ghost predicate SameJob(a: JobRecord, b: JobRecord) {
    && a.jobId == b.jobId && a.sequence == b.sequence && a.idempotencyKey == b.idempotencyKey
    && a.capability == b.capability && a.requirements == b.requirements && a.maxAttempts == b.maxAttempts
  }

  /** A new token is nobody else's, and a kept one stays its job's own. */
  predicate TokenOwn(s: Store, j: string, job: JobRecord)
    requires j in s.jobs
  {
    job.leaseToken.Some? ==> job.leaseToken == s.jobs[j].leaseToken || job.leaseToken.value !in s.tokens
  }

  lemma JobReplaced(s: Store, j: string, job: JobRecord, t: Store)
    requires JobsShaped(s) && JobsDistinct(s) && j in s.jobs && SameJob(s.jobs[j], job)
    requires t.jobs == s.jobs[j := job] && s.tokens <= t.tokens
    requires JobShape(j, job, t.tokens) && TokenOwn(s, j, job)
    ensures JobsShaped(t) && JobsDistinct(t)
  {
    JobShapesKept(s, j, t);
    hide JobsShaped;
    forall i | i in s.jobs && i != j && job.leaseToken.Some? ensures s.jobs[i].leaseToken != job.leaseToken {
      TokenIssued(s, i);
      if job.leaseToken == s.jobs[j].leaseToken {
        assert s.jobs[j].leaseToken.Some?;
      }
    }
    hide JobShape;
  }

  lemma TokenIssued(s: Store, i: string)
    requires JobsShaped(s) && i in s.jobs
    ensures s.jobs[i].leaseToken.Some? ==> s.jobs[i].leaseToken.value in s.tokens
  {
    assert JobShape(i, s.jobs[i], s.tokens);
  }

  lemma ShapeWithMoreTokens(id: string, job: JobRecord, tokens: set<string>, more: set<string>)
    requires JobShape(id, job, tokens) && tokens <= more
    ensures JobShape(id, job, more)
  {
  }

  lemma JobShapesKept(s: Store, j: string, t: Store)
    requires JobsShaped(s) && s.tokens <= t.tokens && j in t.jobs && JobShape(j, t.jobs[j], t.tokens)
    requires t.jobs == s.jobs[j := t.jobs[j]]
    ensures JobsShaped(t)
  {
    hide JobShape;
    forall i | i in t.jobs ensures JobShape(i, t.jobs[i], t.tokens) {
      if i != j { ShapeWithMoreTokens(i, s.jobs[i], s.tokens, t.tokens); }
    }
  }

  lemma JobsKept(s: Store, t: Store)
    requires JobsShaped(s) && JobsDistinct(s) && t.jobs == s.jobs && t.tokens == s.tokens
    ensures JobsShaped(t) && JobsDistinct(t)
  {
    hide JobShape;
  }

  // --------------------------------------------------------- worker rows alone

  /** Rows rewritten without touching spec or limit. */
  ghost predicate SameSpecs(before: map<string, WorkerRecord>, after: map<string, WorkerRecord>) {
    && after.Keys == before.Keys
    && (forall w :: w in before ==>
          after[w].spec == before[w].spec && after[w].maxConcurrency == before[w].maxConcurrency)
  }

  /** The same, and without a new owner. */
  ghost predicate OnlyReleases(before: map<string, WorkerRecord>, after: map<string, WorkerRecord>) {
    SameSpecs(before, after) && forall w :: w in before && Owns(after[w]) ==> Owns(before[w])
  }

  lemma ReleasesKeepExclusive(s: Store, t: Store)
    requires Exclusive(s) && OnlyReleases(s.workers, t.workers)
    ensures Exclusive(t)
  {
    hide Gpus, Owns;
  }

  lemma WorkersKept(s: Store, t: Store)
    requires WorkersShaped(s) && SameSpecs(s.workers, t.workers)
    ensures WorkersShaped(t)
  {
  }

  /** Whoever is assigned was assigned before, to the same worker and with the same needs. */
  ghost predicate SamePlaces(before: map<string, JobRecord>, after: map<string, JobRecord>) {
    forall j :: j in after && after[j].assignedWorker.Some? ==>
      && j in before && before[j].assignedWorker == after[j].assignedWorker
      && before[j].capability == after[j].capability && before[j].requirements == after[j].requirements
  }

  lemma FitsKept(s: Store, t: Store)
    requires RunningFits(s) && SameSpecs(s.workers, t.workers) && SamePlaces(s.jobs, t.jobs)
    ensures RunningFits(t)
  {
    hide WorkerMatches;
  }

  ghost predicate SameCounts(before: map<string, JobRecord>, after: map<string, JobRecord>) {
    forall w :: RunningCount(after, w) == RunningCount(before, w)
  }

  lemma CountersKept(s: Store, t: Store)
    requires CountersExact(s) && SameSpecs(s.workers, t.workers) && SameCounts(s.jobs, t.jobs)
    requires forall w :: w in s.workers ==> t.workers[w].activeJobs == s.workers[w].activeJobs
    ensures CountersExact(t)
  {
    hide RunningCount;
  }

  lemma CountsKept(before: map<string, JobRecord>, after: map<string, JobRecord>)
    requires forall j, w :: (j in before && RunsOn(before[j], w)) <==> (j in after && RunsOn(after[j], w))
    ensures SameCounts(before, after)
  {
    hide RunningCount, RunsOn;
    forall w ensures RunningCount(after, w) == RunningCount(before, w) { CountUnchanged(before, after, w); }
  }

  // ------------------------------------------------------------------ events

  lemma NothingAssigned(s: Store, w: string)
    requires JobsShaped(s) && RunningCount(s.jobs, w) == 0
    ensures forall j :: j in s.jobs ==> s.jobs[j].assignedWorker != Some(w)
  {
    CountZero(s.jobs, w);
    forall j | j in s.jobs ensures s.jobs[j].assignedWorker != Some(w) {
      assert JobShape(j, s.jobs[j], s.tokens);
    }
  }

  lemma NobodyUnknown(s: Store, w: string)
    requires JobsShaped(s) && RunningFits(s) && w !in s.workers
    ensures RunningCount(s.jobs, w) == 0
  {
    hide WorkerMatches, JobsShaped;
    assert RunningOn(s.jobs, w) == {};
  }

  /** Nothing runs on a worker whose counter is zero or that was never enrolled. */
  lemma IdleWorker(s: Store, w: string)
    requires Valid(s) && (w in s.workers ==> s.workers[w].activeJobs == 0)
    ensures RunningCount(s.jobs, w) == 0
    ensures forall j :: j in s.jobs ==> s.jobs[j].assignedWorker != Some(w)
  {
    hide JobsShaped, JobsDistinct, WorkersShaped, RunningFits, Exclusive, RunningCount;
    if w !in s.workers { NobodyUnknown(s, w); }
    NothingAssigned(s, w);
  }

  lemma RegisterKeepsFit(s: Store, w: string, r: WorkerRecord)
    requires Valid(s) && r.spec.workerId == w
    requires w in s.workers && s.workers[w].activeJobs > 0 ==> r.spec == s.workers[w].spec
    ensures RunningFits(s.(workers := s.workers[w := r]))
  {
    if !(w in s.workers && s.workers[w].activeJobs > 0) {
      CounterNotNegative(s, w);
      IdleWorker(s, w);
    }
    hide JobsShaped, JobsDistinct, WorkersShaped, CountersExact, Exclusive, WorkerMatches;
  }

  lemma CounterNotNegative(s: Store, w: string)
    requires Valid(s)
    ensures w in s.workers ==> s.workers[w].activeJobs >= 0
  {
    hide JobsShaped, JobsDistinct, WorkersShaped, RunningFits, Exclusive;
  }

  lemma RegisterKeepsCounters(s: Store, reg: WorkerRegistration, now: int)
    requires Valid(s) && reg.Valid() && ShapeKept(s.workers, reg)
    ensures var w := reg.spec.workerId;
            CountersExact(s.(workers := s.workers[w := Enrolled(s, reg, now)]))
  {
    hide JobsShaped, JobsDistinct, WorkersShaped, RunningFits, Exclusive, RunningCount, Gpus;
    var w := reg.spec.workerId;
    if !(w in s.workers && s.workers[w].activeJobs > 0) {
      CounterNotNegative(s, w);
      IdleWorker(s, w);
    }
  }

  lemma RegisterKeepsValid(cfg: Config, s: Store, e: Event)
    requires Valid(s) && e.Register? && Enabled(cfg, s, e)
    ensures Valid(Apply(cfg, s, e))
  {
    hide JobsShaped, JobsDistinct, CountersExact, RunningFits, Exclusive, NoOverlap, RunningCount;
    var t := Apply(cfg, s, e);
    var w := e.registration.spec.workerId;
    RegisterKeepsFit(s, w, t.workers[w]);
    RegisterKeepsCounters(s, e.registration, e.now);
    JobsKept(s, t);
    OwnerAdded(s, w, t.workers[w]);
  }

  /** An owner that passed the overlap check joins the others. */
  lemma OwnerAdded(s: Store, w: string, r: WorkerRecord)
    requires Exclusive(s) && NoOverlap(s.workers, w, Gpus(r.spec))
    ensures Exclusive(s.(workers := s.workers[w := r]))
  {
    hide Gpus, Owns;
  }

  /** Only state and time of one worker change: the rest of the invariant is untouched. */
  lemma RowsKept(s: Store, t: Store)
    requires Valid(s) && t.jobs == s.jobs && t.tokens == s.tokens && SameSpecs(s.workers, t.workers)
    requires forall w :: w in s.workers ==> t.workers[w].activeJobs == s.workers[w].activeJobs
    requires Exclusive(t)
    ensures Valid(t)
  {
    hide JobsShaped, JobsDistinct, CountersExact, RunningFits, Exclusive, WorkersShaped, SameSpecs;
    JobsKept(s, t);
    WorkersKept(s, t);
    CountersKept(s, t);
    FitsKept(s, t);
  }

  lemma StateKeepsExclusive(s: Store, w: string, state: WorkerState, now: int)
    requires Exclusive(s) && w in s.workers
    requires !state.Offline? ==> NoOverlap(s.workers, w, Gpus(s.workers[w].spec))
    ensures Exclusive(s.(workers := s.workers[w := s.workers[w].(state := state, lastSeenAt := now)]))
  {
    hide Exclusive, NoOverlap, Gpus;
    var r := s.workers[w].(state := state, lastSeenAt := now);
    if state.Offline? { ReleasesKeepExclusive(s, s.(workers := s.workers[w := r])); } else { OwnerAdded(s, w, r); }
  }

  lemma SetStateKeepsValid(cfg: Config, s: Store, e: Event)
    requires Valid(s) && e.SetState? && Enabled(cfg, s, e)
    ensures Valid(Apply(cfg, s, e))
  {
    hide JobsShaped, JobsDistinct, CountersExact, RunningFits, Exclusive, WorkersShaped, NoOverlap, Owns, Gpus;
    StateKeepsExclusive(s, e.worker, e.state, e.now);
    RowsKept(s, Apply(cfg, s, e));
  }

  /** The recount gives back the stored counter, so no released worker starts owning again. */
  lemma HeartbeatRecount(cfg: Config, s: Store, e: Event)
    requires Valid(s) && e.Heartbeat? && Enabled(cfg, s, e)
    ensures Apply(cfg, s, e).workers[e.worker].activeJobs == s.workers[e.worker].activeJobs
    ensures forall w :: RunningCount(Apply(cfg, s, e).jobs, w) == RunningCount(s.jobs, w)
  {
    hide JobsShaped, JobsDistinct, WorkersShaped, RunningFits, Exclusive, RunningCount;
    CountsKept(s.jobs, Apply(cfg, s, e).jobs);
  }

  lemma HeartbeatKeepsJobs(cfg: Config, s: Store, e: Event)
    requires JobsShaped(s) && JobsDistinct(s) && e.Heartbeat? && Enabled(cfg, s, e)
    ensures JobsShaped(Apply(cfg, s, e)) && JobsDistinct(Apply(cfg, s, e))
    ensures SamePlaces(s.jobs, Apply(cfg, s, e).jobs)
  {
    var t := Apply(cfg, s, e);
    hide JobsDistinct;
    if e.beat.Leased() {
      var j := e.beat.activeJobId.value;
      assert JobShape(j, s.jobs[j], s.tokens);
      hide JobsShaped;
      JobReplaced(s, j, t.jobs[j], t);
    } else {
      hide JobsShaped;
      JobsKept(s, t);
    }
  }

  lemma HeartbeatKeepsValid(cfg: Config, s: Store, e: Event)
    requires Valid(s) && e.Heartbeat? && Enabled(cfg, s, e)
    ensures Valid(Apply(cfg, s, e))
  {
    hide JobsShaped, JobsDistinct, CountersExact, RunningFits, Exclusive, WorkersShaped, RunningCount, SamePlaces, LeaseHeld;
    var t := Apply(cfg, s, e);
    HeartbeatRecount(cfg, s, e);
    HeartbeatKeepsJobs(cfg, s, e);
    WorkersKept(s, t);
    CountersKept(s, t);
    FitsKept(s, t);
    ReleasesKeepExclusive(s, t);
  }

  lemma MarkOfflineKeepsValid(cfg: Config, s: Store, e: Event)
    requires Valid(s) && e.MarkOffline? && Enabled(cfg, s, e)
    ensures Valid(Apply(cfg, s, e))
  {
    hide JobsShaped, JobsDistinct, CountersExact, RunningFits, Exclusive, WorkersShaped;
    var t := Apply(cfg, s, e);
    ReleasesKeepExclusive(s, t);
    RowsKept(s, t);
  }

  lemma SubmitKeepsJobs(cfg: Config, s: Store, e: Event)
    requires JobsShaped(s) && JobsDistinct(s) && e.Submit? && Enabled(cfg, s, e)
    ensures JobsShaped(Apply(cfg, s, e)) && JobsDistinct(Apply(cfg, s, e))
  {
    var t := Apply(cfg, s, e);
    assert JobShape(e.job, t.jobs[e.job], t.tokens);
    hide JobShape;
    JobShapesKept(s, e.job, t);
    hide JobsShaped;
  }

  lemma SubmitKeepsValid(cfg: Config, s: Store, e: Event)
    requires Valid(s) && e.Submit? && Enabled(cfg, s, e)
    ensures Valid(Apply(cfg, s, e))
  {
    hide JobsShaped, JobsDistinct, CountersExact, RunningFits, Exclusive, WorkersShaped, RunningCount;
    var t := Apply(cfg, s, e);
    SubmitKeepsJobs(cfg, s, e);
    CountsKept(s.jobs, t.jobs);
    WorkersKept(s, t);
    CountersKept(s, t);
    FitsKept(s, t);
    ReleasesKeepExclusive(s, t);
  }

  lemma ClaimKeepsJobs(cfg: Config, s: Store, e: Event)
    requires JobsShaped(s) && JobsDistinct(s) && e.Claim? && Enabled(cfg, s, e)
    ensures JobsShaped(Apply(cfg, s, e)) && JobsDistinct(Apply(cfg, s, e))
  {
    var t := Apply(cfg, s, e);
    assert JobShape(e.job, s.jobs[e.job], s.tokens);
    hide JobsShaped, JobsDistinct, WorkerMatches;
    JobReplaced(s, e.job, t.jobs[e.job], t);
  }

  lemma ClaimKeepsCounters(cfg: Config, s: Store, e: Event)
    requires CountersExact(s) && e.Claim? && Enabled(cfg, s, e)
    ensures CountersExact(Apply(cfg, s, e))
  {
    hide WorkerMatches, RunningCount;
    var t := Apply(cfg, s, e);
    forall w | w in t.workers ensures t.workers[w].activeJobs == RunningCount(t.jobs, w) {
      if w == e.worker { CountRises(s.jobs, e.job, t.jobs[e.job], w); }
      else { CountUnchanged(s.jobs, t.jobs, w); }
    }
  }

  lemma ClaimKeepsFit(cfg: Config, s: Store, e: Event)
    requires RunningFits(s) && e.Claim? && Enabled(cfg, s, e)
    ensures RunningFits(Apply(cfg, s, e))
  {
    hide WorkerMatches;
  }

  lemma ClaimKeepsValid(cfg: Config, s: Store, e: Event)
    requires Valid(s) && e.Claim? && Enabled(cfg, s, e)
    ensures Valid(Apply(cfg, s, e))
  {
    hide JobsShaped, JobsDistinct, CountersExact, RunningFits, Exclusive, WorkersShaped, Eligible;
    var t := Apply(cfg, s, e);
    ClaimKeepsJobs(cfg, s, e);
    ClaimKeepsCounters(cfg, s, e);
    ClaimKeepsFit(cfg, s, e);
    WorkersKept(s, t);
    ReleasesKeepExclusive(s, t);
  }

  lemma Assigned(s: Store, j: string)
    requires Valid(s) && j in s.jobs && s.jobs[j].status.Running?
    ensures s.jobs[j].assignedWorker.Some? && s.jobs[j].assignedWorker.value in s.workers
    ensures RunsOn(s.jobs[j], s.jobs[j].assignedWorker.value)
  {
    hide JobsDistinct, CountersExact, WorkersShaped, Exclusive, WorkerMatches;
    assert JobShape(j, s.jobs[j], s.tokens);
  }

  lemma JobLeavesCounters(s: Store, j: string, job: JobRecord, w: string, t: Store)
    requires CountersExact(s) && j in s.jobs && RunsOn(s.jobs[j], w) && w in s.workers && !job.status.Running?
    requires t == Store(Release(s.workers, Some(w)), s.jobs[j := job], s.tokens)
    ensures CountersExact(t) && s.workers[w].activeJobs >= 1
    ensures t.workers[w].activeJobs == s.workers[w].activeJobs - 1
  {
    hide RunningCount;
    CountFalls(s.jobs, j, job, w);
    forall v | v in t.workers ensures t.workers[v].activeJobs == RunningCount(t.jobs, v) {
      if v != w { CountUnchanged(s.jobs, t.jobs, v); }
    }
  }

  /** A running job leaves its worker: the clamp at zero is never reached and every
      counter stays exact. */
  lemma JobLeaves(s: Store, j: string, job: JobRecord, t: Store)
    requires Valid(s) && j in s.jobs && s.jobs[j].status.Running? && SameJob(s.jobs[j], job)
    requires !job.status.Running? && JobShape(j, job, s.tokens)
    requires t == Store(Release(s.workers, s.jobs[j].assignedWorker), s.jobs[j := job], s.tokens)
    ensures Valid(t)
    ensures s.workers[s.jobs[j].assignedWorker.value].activeJobs >= 1
    ensures t.workers[s.jobs[j].assignedWorker.value].activeJobs ==
            s.workers[s.jobs[j].assignedWorker.value].activeJobs - 1
  {
    hide JobsShaped, JobsDistinct, CountersExact, RunningFits, Exclusive, WorkersShaped;
    Assigned(s, j);
    JobLeavesCounters(s, j, job, s.jobs[j].assignedWorker.value, t);
    JobReplaced(s, j, job, t);
    WorkersKept(s, t);
    FitsKept(s, t);
    ReleasesKeepExclusive(s, t);
  }

  lemma CancelledShape(cfg: Config, s: Store, e: Event)
    requires JobsShaped(s) && e.Cancel? && Enabled(cfg, s, e) && !s.jobs[e.job].status.Running?
    ensures var job := Apply(cfg, s, e).jobs[e.job];
            JobShape(e.job, job, s.tokens) && job.leaseToken.None? && job.assignedWorker.None?
  {
    assert JobShape(e.job, s.jobs[e.job], s.tokens);
  }

  lemma QueuedCancelKeepsValid(cfg: Config, s: Store, e: Event)
    requires Valid(s) && e.Cancel? && Enabled(cfg, s, e) && !s.jobs[e.job].status.Running?
    ensures Valid(Apply(cfg, s, e))
  {
    hide JobsShaped, JobsDistinct, CountersExact, RunningFits, Exclusive, WorkersShaped, JobShape, RunningCount;
    var t := Apply(cfg, s, e);
    CancelledShape(cfg, s, e);
    JobReplaced(s, e.job, t.jobs[e.job], t);
    CountsKept(s.jobs, t.jobs);
    WorkersKept(s, t);
    CountersKept(s, t);
    FitsKept(s, t);
    ReleasesKeepExclusive(s, t);
  }

  /** The four events that end a running attempt, seen as one. */
  lemma EndOfAttemptKeepsValid(cfg: Config, s: Store, e: Event)
    requires Valid(s) && Enabled(cfg, s, e)
    requires e.Complete? || e.Fail? || e.Recover? || (e.Cancel? && s.jobs[e.job].status.Running?)
    ensures Valid(Apply(cfg, s, e))
  {
    hide JobsDistinct, CountersExact, RunningFits, Exclusive, WorkersShaped;
    var t := Apply(cfg, s, e);
    assert JobShape(e.job, s.jobs[e.job], s.tokens);
    JobLeaves(s, e.job, t.jobs[e.job], t);
  }

  /** Whatever the event, the invariant survives it. */
  lemma EventKeepsValid(cfg: Config, s: Store, e: Event)
    requires Valid(s) && Enabled(cfg, s, e)
    ensures Valid(Apply(cfg, s, e))
  {
    hide Valid, Apply, ShapeKept, NoOverlap, StaysReleased, LeaseHeld, Eligible, Expired;
    match e
    case Register(_, _) => RegisterKeepsValid(cfg, s, e);
    case SetState(_, _, _) => SetStateKeepsValid(cfg, s, e);
    case Heartbeat(_, _, _) => HeartbeatKeepsValid(cfg, s, e);
    case MarkOffline(_) => MarkOfflineKeepsValid(cfg, s, e);
    case Submit(_, _, _, _) => SubmitKeepsValid(cfg, s, e);
    case Claim(_, _, _, _) => ClaimKeepsValid(cfg, s, e);
    case Cancel(j, _) =>
      if s.jobs[j].status.Running? { EndOfAttemptKeepsValid(cfg, s, e); } else { QueuedCancelKeepsValid(cfg, s, e); }
    case _ => EndOfAttemptKeepsValid(cfg, s, e);
  }

  lemma CounterAt(db: Store, w: string)
    requires Valid(db) && w in db.workers
    ensures db.workers[w].activeJobs == RunningCount(db.jobs, w)
  {
  }

  lemma EmptyIsValid()
    ensures Valid(EMPTY)
  {
  }
}
