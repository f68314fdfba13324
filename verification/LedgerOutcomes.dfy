/** What the rows of the control plane mean.  In every run a job row is explained by
    the events that named the job: its status, result, error and times by the last one
    that wrote it, its holder and deadline by the last one that granted the lease.  A
    worker row is explained the same way by what the worker last said of itself. */
module LedgerOutcomes {
  import opened Contracts
  import opened Ledger
  import opened LedgerInvariant
  import opened LedgerRuns

  // ------------------------------------------------------------------ leases

  /** The event hands worker `w` the lease of `j` under `token`, or renews it. */
  predicate Grants(e: Event, j: string, w: string, token: string) {
    match e
    case Claim(v, i, t, _) => i == j && v == w && t == token
    case Heartbeat(v, beat, _) => v == w && beat.activeJobId == Some(j) && beat.leaseToken == Some(token)
    case _ => false
  }

  predicate LeaseUntil(job: JobRecord, w: string, token: string, deadline: int) {
    && job.status.Running? && job.assignedWorker == Some(w)
    && token != "" && job.leaseToken == Some(token) && job.leaseExpiresAt == Some(deadline)
  }

  /** Before the deadline results, failures and renewals of `j` are taken from this worker
      under this token and from nobody else; from the deadline on only recovery takes it. */
  ghost predicate AnswersTo(cfg: Config, s: Store, j: string, w: string, token: string, deadline: int) {
    && (forall v, u, result, t :: Enabled(cfg, s, Complete(j, result, v, u, t)) <==> v == w && u == token && t < deadline)
    && (forall v, u, message, retryable, t ::
          Enabled(cfg, s, Fail(j, message, retryable, v, u, t)) <==> v == w && u == token && t < deadline)
    && (forall v, beat: WorkerHeartbeat, t :: beat.activeJobId == Some(j) && Enabled(cfg, s, Heartbeat(v, beat, t)) ==>
          v == w && beat.leaseToken == Some(token) && t < deadline)
    && (forall beat: WorkerHeartbeat, t ::
          w in s.workers && !s.workers[w].state.Offline? && j != "" && beat.activeJobId == Some(j) && beat.leaseToken == Some(token) ==>
          (Enabled(cfg, s, Heartbeat(w, beat, t)) <==> t < deadline))
    && (forall t :: Enabled(cfg, s, Recover(j, t)) <==> deadline <= t)
  }

  lemma LeaseDecides(cfg: Config, s: Store, j: string, w: string, token: string, deadline: int)
    requires j in s.jobs && LeaseUntil(s.jobs[j], w, token, deadline)
    ensures AnswersTo(cfg, s, j, w, token, deadline)
  {
  }

  /** A claim and a renewing heartbeat give the lease for exactly the configured time. */
  lemma GrantsRunForTheLease(cfg: Config, s: Store, e: Event, j: string, w: string, token: string)
    requires Enabled(cfg, s, e) && Grants(e, j, w, token)
    ensures j in Apply(cfg, s, e).jobs && LeaseUntil(Apply(cfg, s, e).jobs[j], w, token, e.now + cfg.lease)
    ensures AnswersTo(cfg, Apply(cfg, s, e), j, w, token, e.now + cfg.lease)
  {
    var t := Apply(cfg, s, e);
    assert LeaseUntil(t.jobs[j], w, token, e.now + cfg.lease);
    hide Enabled, Apply, AnswersTo;
    LeaseDecides(cfg, t, j, w, token, e.now + cfg.lease);
  }

  // ---------------------------------------------------------------- job rows

  /** The event writes the row of `j`, lease renewals apart. */
  predicate Writes(e: Event, j: string) {
    (e.Submit? || e.Claim? || e.Complete? || e.Fail? || e.Cancel? || e.Recover?) && e.job == j
  }

  /** An attempt that ended without a result: queued again when a retry is granted, which
      takes both the verdict and an attempt that is left, and failed otherwise. */
  predicate ShowsFailure(row: JobRecord, message: Opaque, retryable: bool, now: int) {
    if retryable && row.attempts < row.maxAttempts then
      && row.status.Queued? && row.error == Some(Failure(message, true))
      && row.availableAt == now && row.startedAt.None? && row.finishedAt.None?
    else
      && row.status == JobStatus.Failed && row.error == Some(Failure(message, false))
      && row.finishedAt == Some(now)
  }

  /** What a row shows of the event that wrote it last. */
  predicate Shows(row: JobRecord, e: Event) {
    match e
    case Submit(_, sub, _, now) =>
      && row.status.Queued? && row.attempts == 0
      && row.availableAt == (if sub.availableAt.Some? then sub.availableAt.value else now)
      && row.startedAt.None? && row.finishedAt.None? && row.error.None?
    case Claim(w, _, token, now) =>
      && row.status.Running? && row.assignedWorker == Some(w) && row.leaseToken == Some(token)
      && row.startedAt == Some(now) && row.finishedAt.None? && row.error.None?
    case Complete(_, result, _, _, now) =>
      row.status.Succeeded? && row.result == Some(result) && row.error.None? && row.finishedAt == Some(now)
    case Fail(_, message, retryable, _, _, now) => ShowsFailure(row, message, retryable, now)
    case Recover(_, now) => ShowsFailure(row, "worker lease expired", true, now)
    case Cancel(_, now) => row.status.Cancelled? && row.finishedAt == Some(now)
    case _ => false
  }

  /** Only a succeeded job has a result, and only a running one has a holder. */
  predicate Settled(row: JobRecord) {
    && (row.result.Some? <==> row.status.Succeeded?)
    && (row.finishedAt.Some? <==> row.status.Terminal())
    && (row.assignedWorker.Some? <==> row.status.Running?)
    && (row.leaseToken.Some? <==> row.status.Running?)
    && (row.leaseExpiresAt.Some? <==> row.status.Running?)
  }

  /** An attempt that ended for good keeps its start, and a cancelled job its last error. */
  predicate KeepsStart(before: JobRecord, row: JobRecord) {
    && (row.status.Succeeded? || row.status == JobStatus.Failed || row.status.Cancelled? ==> row.startedAt == before.startedAt)
    && (row.status.Cancelled? ==> row.error == before.error)
  }

  /** The row holds the request as it was submitted. */
  predicate AskedBy(row: JobRecord, e: Event) {
    && e.Submit? && row.jobId == e.job && row.sequence == e.sequence && row.createdAt == e.now
    && row.capability == e.submission.capability && row.payload == e.submission.payload
    && row.requirements == e.submission.requirements && row.priority == e.submission.priority
    && row.maxAttempts == e.submission.maxAttempts && row.idempotencyKey == e.submission.idempotencyKey
  }

  /** The event that writes a row decides what it shows; renewals move the deadline only,
      and no other event touches the row. */
  lemma EventsShow(cfg: Config, s: Store, e: Event, j: string)
    requires Enabled(cfg, s, e) && j in Apply(cfg, s, e).jobs
    requires j in s.jobs ==> Settled(s.jobs[j])
    ensures var row := Apply(cfg, s, e).jobs[j];
      && Settled(row)
      && (Writes(e, j) ==> Shows(row, e) && row.updatedAt == e.now)
      && (if e.Submit? && e.job == j then AskedBy(row, e) else
            j in s.jobs && KeepsStart(s.jobs[j], row) && forall f :: AskedBy(s.jobs[j], f) ==> AskedBy(row, f))
      && (Renews(e, j) ==> j in s.jobs && row == s.jobs[j].(leaseExpiresAt := Some(e.now + cfg.lease), updatedAt := e.now))
      && (!Writes(e, j) && !Renews(e, j) ==> j in s.jobs && row == s.jobs[j])
  {
    if j in s.jobs {
      RowAfterEvent(cfg, s, e, j);
      RowReadyWhenEnabled(cfg, s, e, j);
      assert !e.Submit? || e.job != j;
      hide Enabled, Apply;
      RowShows(cfg, j, s.jobs[j], e);
    }
  }

  lemma RowShows(cfg: Config, j: string, before: JobRecord, e: Event)
    requires RowReady(j, before, e) && Settled(before) && !(e.Submit? && e.job == j)
    ensures var row := RowAfter(cfg, j, before, e);
      && Settled(row)
      && (Writes(e, j) ==> Shows(row, e) && row.updatedAt == e.now)
      && KeepsStart(before, row) && (forall f :: AskedBy(before, f) ==> AskedBy(row, f))
      && (Renews(e, j) ==> row == before.(leaseExpiresAt := Some(e.now + cfg.lease), updatedAt := e.now))
      && (!Writes(e, j) && !Renews(e, j) ==> row == before)
  {
  }

  ghost function LastSubmission(es: seq<Event>, j: string): Option<Event> {
    if es == [] then None
    else if es[|es|-1].Submit? && es[|es|-1].job == j then Some(es[|es|-1])
    else LastSubmission(es[..|es|-1], j)
  }

  ghost function LastWrite(es: seq<Event>, j: string): Option<Event> {
    if es == [] then None
    else if Writes(es[|es|-1], j) then Some(es[|es|-1])
    else LastWrite(es[..|es|-1], j)
  }

  /** The last event that wrote the row or renewed its lease. */
  ghost function LastTouch(es: seq<Event>, j: string): Option<Event> {
    if es == [] then None
    else if Writes(es[|es|-1], j) || Renews(es[|es|-1], j) then Some(es[|es|-1])
    else LastTouch(es[..|es|-1], j)
  }

  /** The row is what the events that named its job make of it. */
  ghost predicate Explained(cfg: Config, es: seq<Event>, row: JobRecord, j: string) {
    && Settled(row)
    && LastSubmission(es, j).Some? && AskedBy(row, LastSubmission(es, j).value)
    && LastWrite(es, j).Some? && Shows(row, LastWrite(es, j).value)
    && LastTouch(es, j).Some? && Moment(LastTouch(es, j).value) == Some(row.updatedAt)
    && (row.status.Running? ==>
          && Grants(LastTouch(es, j).value, j, row.assignedWorker.value, row.leaseToken.value)
          && LeaseUntil(row, row.assignedWorker.value, row.leaseToken.value, row.updatedAt + cfg.lease))
  }

  lemma LastStep(cfg: Config, s: Store, es: seq<Event>)
    requires Accepts(cfg, s, es) && es != []
    ensures var n := |es| - 1;
      && Accepts(cfg, s, es[..n]) && Enabled(cfg, Replay(cfg, s, es[..n]), es[n])
      && Replay(cfg, s, es) == Apply(cfg, Replay(cfg, s, es[..n]), es[n])
  {
    hide Enabled, Apply;
    var n := |es| - 1;
    ReplaySplit(cfg, s, es, n);
    assert es[n..] == [es[n]] && es[n..][1..] == [];
  }

  lemma ExplainedOneStep(cfg: Config, s: Store, es: seq<Event>, j: string)
    requires es != [] && Enabled(cfg, s, es[|es|-1]) && j in Apply(cfg, s, es[|es|-1]).jobs
    requires j in s.jobs ==> Explained(cfg, es[..|es|-1], s.jobs[j], j)
    ensures Explained(cfg, es, Apply(cfg, s, es[|es|-1]).jobs[j], j)
  {
    var e := es[|es|-1];
    var t := Apply(cfg, s, e);
    EventsShow(cfg, s, e, j);
    if Renews(e, j) { RenewalKeepsShowing(s.jobs[j], e.now + cfg.lease, e.now, LastWrite(es[..|es|-1], j).value); }
    hide Shows, AskedBy, KeepsStart;
    if e.Claim? && e.job == j {
      GrantsRunForTheLease(cfg, s, e, j, e.worker, e.token);
    } else if Renews(e, j) {
      RenewalNamesToken(cfg, s, e);
      GrantsRunForTheLease(cfg, s, e, j, e.worker, e.beat.leaseToken.value);
    }
    hide Enabled, Apply, AnswersTo;
  }

  lemma RenewalKeepsShowing(row: JobRecord, deadline: int, now: int, e: Event)
    requires Shows(row, e)
    ensures Shows(row.(leaseExpiresAt := Some(deadline), updatedAt := now), e)
  {
  }

  lemma RenewalNamesToken(cfg: Config, s: Store, e: Event)
    requires Enabled(cfg, s, e) && e.Heartbeat? && e.beat.Leased()
    ensures e.beat.leaseToken.Some?
  {
  }

  /** In every run each job row is explained by the run. */
  lemma {:induction false} RowsAreExplained(cfg: Config, es: seq<Event>, j: string)
    requires Accepts(cfg, EMPTY, es) && j in Replay(cfg, EMPTY, es).jobs
    ensures Explained(cfg, es, Replay(cfg, EMPTY, es).jobs[j], j)
    decreases |es|
  {
    if es != [] {
      var n := |es| - 1;
      LastStep(cfg, EMPTY, es);
      var s := Replay(cfg, EMPTY, es[..n]);
      hide Enabled, Apply, Explained;
      if j in s.jobs { RowsAreExplained(cfg, es[..n], j); }
      ExplainedOneStep(cfg, s, es, j);
    }
  }

  /** Who may write a running job in a run, and until when: the worker and the token of its
      last grant, for the lease from then on. */
  lemma LastGrantDecides(cfg: Config, es: seq<Event>, j: string)
    requires Accepts(cfg, EMPTY, es)
    requires var s := Replay(cfg, EMPTY, es); j in s.jobs && s.jobs[j].status.Running?
    ensures LastTouch(es, j).Some?
    ensures var e := LastTouch(es, j).value;
      exists w, token :: Grants(e, j, w, token) && AnswersTo(cfg, Replay(cfg, EMPTY, es), j, w, token, e.now + cfg.lease)
  {
    var s := Replay(cfg, EMPTY, es);
    RowsAreExplained(cfg, es, j);
    var row := s.jobs[j];
    var w, token := row.assignedWorker.value, row.leaseToken.value;
    hide AnswersTo;
    LeaseDecides(cfg, s, j, w, token, row.updatedAt + cfg.lease);
    assert Grants(LastTouch(es, j).value, j, w, token);
  }

  // -------------------------------------------------------------- worker rows

  /** What an event says of the state of `w`, if anything. */
  function StateSaid(e: Event, w: string): Option<WorkerState> {
    match e
    case Register(reg, _) => if reg.spec.workerId == w then Some(Online) else None
    case SetState(v, state, _) => if v == w then Some(state) else None
    case Heartbeat(v, beat, _) => if v == w then beat.state else None
    case MarkOffline(stale) => if w in stale then Some(Offline) else None
    case _ => None
  }

  ghost function LastState(es: seq<Event>, w: string): Option<WorkerState> {
    if es == [] then None
    else if StateSaid(es[|es|-1], w).Some? then StateSaid(es[|es|-1], w)
    else LastState(es[..|es|-1], w)
  }

  predicate Registers(e: Event, w: string) {
    e.Register? && e.registration.spec.workerId == w
  }

  /** The worker, or an operator in its name, is heard from. */
  predicate HeardFrom(e: Event, w: string) {
    Registers(e, w) || (e.SetState? && e.worker == w) || (e.Heartbeat? && e.worker == w)
  }

  ghost function LastHeard(es: seq<Event>, w: string): Option<int> {
    if es == [] then None
    else if HeardFrom(es[|es|-1], w) then Some(es[|es|-1].now)
    else LastHeard(es[..|es|-1], w)
  }

  ghost function FirstEnrolled(es: seq<Event>, w: string): Option<int> {
    if es == [] then None
    else if FirstEnrolled(es[..|es|-1], w).Some? then FirstEnrolled(es[..|es|-1], w)
    else if Registers(es[|es|-1], w) then Some(es[|es|-1].now)
    else None
  }

  ghost function LastRegistration(es: seq<Event>, w: string): Option<WorkerRegistration> {
    if es == [] then None
    else if Registers(es[|es|-1], w) then Some(es[|es|-1].registration)
    else LastRegistration(es[..|es|-1], w)
  }

  /** The last word on a metadata key since the worker registered. */
  ghost function LastTold(es: seq<Event>, w: string, k: string): Option<Opaque> {
    if es == [] then None else
      var e := es[|es|-1];
      if Registers(e, w) then if k in e.registration.metadata then Some(e.registration.metadata[k]) else None
      else if e.Heartbeat? && e.worker == w && k in e.beat.metadata then Some(e.beat.metadata[k])
      else LastTold(es[..|es|-1], w, k)
  }

  ghost predicate WorkerExplained(es: seq<Event>, r: WorkerRecord, w: string) {
    && LastState(es, w) == Some(r.state)
    && LastHeard(es, w) == Some(r.lastSeenAt)
    && FirstEnrolled(es, w) == Some(r.registeredAt)
    && LastRegistration(es, w).Some? && LastRegistration(es, w).value.spec == r.spec
    && LastRegistration(es, w).value.maxConcurrency == r.maxConcurrency
    && (forall k :: LastTold(es, w, k) == if k in r.metadata then Some(r.metadata[k]) else None)
  }

  /** A worker has no row exactly as long as it never registered. */
  ghost predicate WorkersExplained(s: Store, es: seq<Event>) {
    forall w :: if w in s.workers then WorkerExplained(es, s.workers[w], w) else FirstEnrolled(es, w).None?
  }

  /** What one event leaves in the row of `w`: whatever it does not speak of stays. */
  lemma WorkerStep(cfg: Config, s: Store, e: Event, w: string)
    requires Enabled(cfg, s, e)
    ensures var t := Apply(cfg, s, e);
      && (w in t.workers <==> w in s.workers || Registers(e, w))
      && (w in t.workers ==> var r := t.workers[w];
            && r.state == (if StateSaid(e, w).Some? then StateSaid(e, w).value else s.workers[w].state)
            && r.lastSeenAt == (if HeardFrom(e, w) then e.now else s.workers[w].lastSeenAt)
            && r.registeredAt == (if w in s.workers then s.workers[w].registeredAt else e.now)
            && r.spec == (if Registers(e, w) then e.registration.spec else s.workers[w].spec)
            && r.maxConcurrency == (if Registers(e, w) then e.registration.maxConcurrency else s.workers[w].maxConcurrency)
            && r.metadata == (if Registers(e, w) then e.registration.metadata
                              else if e.Heartbeat? && e.worker == w then s.workers[w].metadata + e.beat.metadata
                              else s.workers[w].metadata))
  {
    hide NoOverlap, Eligible, LeaseHeld, Expired, RunningCount, ShapeKept, StaysReleased;
    hide Renewed, Claimed, Completed, Retried, Dropped, Recovered, NewJob;
  }

  lemma WorkerExplainedOneStep(cfg: Config, s: Store, es: seq<Event>, w: string)
    requires es != [] && Enabled(cfg, s, es[|es|-1])
    requires if w in s.workers then WorkerExplained(es[..|es|-1], s.workers[w], w) else FirstEnrolled(es[..|es|-1], w).None?
    ensures var t := Apply(cfg, s, es[|es|-1]);
      if w in t.workers then WorkerExplained(es, t.workers[w], w) else FirstEnrolled(es, w).None?
  {
    hide Enabled, Apply;
    WorkerStep(cfg, s, es[|es|-1], w);
  }

  /** In every run each worker row is explained by the run: by its first registration, its
      last one and by what was last said of it. */
  lemma {:induction false} WorkersAreExplained(cfg: Config, es: seq<Event>)
    requires Accepts(cfg, EMPTY, es)
    ensures WorkersExplained(Replay(cfg, EMPTY, es), es)
    decreases |es|
  {
    hide Enabled, Apply, WorkerExplained;
    if es != [] {
      var n := |es| - 1;
      LastStep(cfg, EMPTY, es);
      WorkersAreExplained(cfg, es[..n]);
      forall w ensures var t := Replay(cfg, EMPTY, es);
                       if w in t.workers then WorkerExplained(es, t.workers[w], w) else FirstEnrolled(es, w).None?
      {
        WorkerExplainedOneStep(cfg, Replay(cfg, EMPTY, es[..n]), es, w);
      }
    }
  }

  /** A claim is accepted only from a worker whose last word was ONLINE and that was heard
      from within the time to live. */
  lemma ClaimersAreHeard(cfg: Config, es: seq<Event>, i: nat)
    requires Accepts(cfg, EMPTY, es) && i < |es| && es[i].Claim?
    ensures LastState(es[..i], es[i].worker) == Some(Online)
    ensures LastHeard(es[..i], es[i].worker).Some?
    ensures es[i].now <= LastHeard(es[..i], es[i].worker).value + cfg.workerTtl
  {
    ReplaySplit(cfg, EMPTY, es, i);
    WorkersAreExplained(cfg, es[..i]);
    var s := Replay(cfg, EMPTY, es[..i]);
    assert es[i..][0] == es[i] && Enabled(cfg, s, es[i]);
    hide Accepts, Replay;
  }

  /** The event brings an offline worker back by name. */
  predicate Restores(e: Event, w: string) {
    Registers(e, w) || (e.SetState? && e.worker == w && !e.state.Offline?)
  }

  /** An offline worker stays offline, whatever its heartbeats ask for, and claims nothing
      until it registers again or an operator sets its state. */
  lemma {:induction false} OfflineStaysOffline(cfg: Config, s: Store, es: seq<Event>, w: string)
    requires Accepts(cfg, s, es) && w in s.workers && s.workers[w].state.Offline?
    requires forall i :: 0 <= i < |es| ==> !Restores(es[i], w)
    ensures w in Replay(cfg, s, es).workers && Replay(cfg, s, es).workers[w].state.Offline?
    ensures forall i :: 0 <= i < |es| ==> !(es[i].Claim? && es[i].worker == w)
    decreases |es|
  {
    if es != [] {
      assert !Restores(es[0], w);
      OfflineOneStep(cfg, s, es[0], w);
      hide Enabled, Apply;
      forall i | 0 <= i < |es[1..]| ensures !Restores(es[1..][i], w) { assert es[1..][i] == es[i+1]; }
      OfflineStaysOffline(cfg, Apply(cfg, s, es[0]), es[1..], w);
      forall i | 0 <= i < |es| ensures !(es[i].Claim? && es[i].worker == w) {
        if i > 0 { assert es[i] == es[1..][i-1]; }
      }
    }
  }

  lemma OfflineOneStep(cfg: Config, s: Store, e: Event, w: string)
    requires Enabled(cfg, s, e) && w in s.workers && s.workers[w].state.Offline? && !Restores(e, w)
    ensures w in Apply(cfg, s, e).workers && Apply(cfg, s, e).workers[w].state.Offline?
    ensures !(e.Claim? && e.worker == w)
  {
    hide NoOverlap, Eligible, LeaseHeld, Expired, RunningCount, ShapeKept;
  }

  // ------------------------------------------------------------- who has GPUs

  /** The worker has its GPUs in hand: it is not offline, or a job still runs on it. */
  ghost predicate UsesGpus(s: Store, w: string) {
    && w in s.workers
    && (!s.workers[w].state.Offline?
        || exists j :: j in s.jobs && s.jobs[j].status.Running? && s.jobs[j].assignedWorker == Some(w))
  }

  predicate ShareGpu(a: WorkerSpec, b: WorkerSpec) {
    exists g :: g in a.gpuUuids && g in b.gpuUuids
  }

  lemma UsersExist(s: Store, w: string)
    requires UsesGpus(s, w)
    ensures w in s.workers
  {
  }

  lemma UsersOwn(s: Store, w: string)
    requires Valid(s) && w in s.workers
    ensures UsesGpus(s, w) <==> Owns(s.workers[w])
  {
    if s.workers[w].activeJobs > 0 && s.workers[w].state.Offline? {
      assert RunningOn(s.jobs, w) != {};
      var j :| j in RunningOn(s.jobs, w);
      assert RunsOn(s.jobs[j], w);
    } else if s.workers[w].activeJobs <= 0 {
      CountZero(s.jobs, w);
      assert forall j :: j in s.jobs ==> !RunsOn(s.jobs[j], w);
    }
  }

  lemma Sharing(a: WorkerSpec, b: WorkerSpec)
    ensures ShareGpu(a, b) <==> !(Gpus(a) !! Gpus(b))
  {
    if g :| g in a.gpuUuids && g in b.gpuUuids {
      assert g in Gpus(a) && g in Gpus(b);
    } else {
      assert forall g :: g in Gpus(a) ==> g in a.gpuUuids;
      assert forall g :: g in Gpus(b) ==> g in b.gpuUuids;
    }
  }

  /** Two workers that have their GPUs in hand share none. */
  lemma GpusAreExclusive(s: Store, v: string, w: string)
    requires Valid(s) && v != w && UsesGpus(s, v) && UsesGpus(s, w)
    ensures !ShareGpu(s.workers[v].spec, s.workers[w].spec)
  {
    UsersOwn(s, v);
    UsersOwn(s, w);
    Sharing(s.workers[v].spec, s.workers[w].spec);
    hide Owns, Gpus, UsesGpus, ShareGpu;
    assert Exclusive(s);
  }

  /** The worker could have its GPUs in hand: nobody else that has its own shares one. */
  ghost predicate GpusFree(s: Store, w: string, spec: WorkerSpec) {
    forall v :: v != w && UsesGpus(s, v) ==> !ShareGpu(s.workers[v].spec, spec)
  }

  lemma FreeMeansNoOverlap(s: Store, w: string, spec: WorkerSpec)
    requires Valid(s)
    ensures GpusFree(s, w, spec) <==> NoOverlap(s.workers, w, Gpus(spec))
  {
    hide Valid, Owns, Gpus, UsesGpus, ShareGpu;
    forall v | v in s.workers
      ensures UsesGpus(s, v) <==> Owns(s.workers[v])
      ensures ShareGpu(s.workers[v].spec, spec) <==> !(Gpus(s.workers[v].spec) !! Gpus(spec))
    {
      UsersOwn(s, v);
      Sharing(s.workers[v].spec, spec);
    }
    forall v | UsesGpus(s, v) ensures v in s.workers { UsersExist(s, v); }
  }

  /** Registration is refused exactly when the record is bad, when jobs still run on another
      hardware or over the new limit, or when somebody else has one of the GPUs in hand. */
  lemma RegistersExactly(cfg: Config, s: Store, reg: WorkerRegistration, now: int)
    requires Valid(s)
    ensures var w := reg.spec.workerId;
      Enabled(cfg, s, Register(reg, now)) <==>
        && reg.Valid() && GpusFree(s, w, reg.spec)
        && (w in s.workers && RunningCount(s.jobs, w) > 0 ==>
              reg.spec == s.workers[w].spec && RunningCount(s.jobs, w) <= reg.maxConcurrency)
  {
    FreeMeansNoOverlap(s, reg.spec.workerId, reg.spec);
  }

  /** A worker that has its GPUs in hand may always switch its state and always register
      again with the hardware and the limit it has. */
  lemma OwnersComeBack(cfg: Config, s: Store, w: string, state: WorkerState, metadata: map<string, Opaque>, now: int)
    requires Valid(s) && UsesGpus(s, w)
    ensures Enabled(cfg, s, SetState(w, state, now))
    ensures Enabled(cfg, s, Register(WorkerRegistration(s.workers[w].spec, s.workers[w].maxConcurrency, metadata), now))
  {
    UsersOwn(s, w);
    hide UsesGpus, Gpus;
  }
}
