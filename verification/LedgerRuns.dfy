/** Laws over whole runs of the control plane: safety in every reachable state,
    lease fencing, the job lifecycle measure and idempotent submission. */
module LedgerRuns {
  import opened Contracts
  import opened Ledger
  import opened LedgerInvariant

  // -------------------------------------------------------------------- runs

  /** Every event of `es` is accepted when replayed from `s`. */
  ghost predicate Accepts(cfg: Config, s: Store, es: seq<Event>)
    decreases |es|
  {
    es == [] || (Enabled(cfg, s, es[0]) && Accepts(cfg, Apply(cfg, s, es[0]), es[1..]))
  }

  ghost function Replay(cfg: Config, s: Store, es: seq<Event>): Store
    requires Accepts(cfg, s, es)
    decreases |es|
  {
    if es == [] then s else Replay(cfg, Apply(cfg, s, es[0]), es[1..])
  }

  lemma {:induction false} ReplayAppend(cfg: Config, s: Store, es: seq<Event>, fs: seq<Event>)
    requires Accepts(cfg, s, es) && Accepts(cfg, Replay(cfg, s, es), fs)
    ensures Accepts(cfg, s, es + fs)
    ensures Replay(cfg, s, es + fs) == Replay(cfg, Replay(cfg, s, es), fs)
    decreases |es|
  {
    if es == [] {
      assert es + fs == fs;
    } else {
      assert (es + fs)[1..] == es[1..] + fs;
      ReplayAppend(cfg, Apply(cfg, s, es[0]), es[1..], fs);
    }
  }

  lemma {:induction false} ReplaySplit(cfg: Config, s: Store, es: seq<Event>, n: nat)
    requires Accepts(cfg, s, es) && n <= |es|
    ensures Accepts(cfg, s, es[..n]) && Accepts(cfg, Replay(cfg, s, es[..n]), es[n..])
    ensures Replay(cfg, s, es) == Replay(cfg, Replay(cfg, s, es[..n]), es[n..])
    decreases n
  {
    if n == 0 {
      assert es[n..] == es;
    } else {
      assert es[..n][1..] == es[1..][..n-1] && es[n..] == es[1..][n-1..];
      ReplaySplit(cfg, Apply(cfg, s, es[0]), es[1..], n - 1);
    }
  }

  /** Safety over every run: exclusive GPUs, exact counters within the limit, and
      running jobs on workers that still fit them, after any accepted events. */
  lemma {:induction false} RunsStayValid(cfg: Config, s: Store, es: seq<Event>)
    requires Valid(s) && Accepts(cfg, s, es)
    ensures Valid(Replay(cfg, s, es))
    decreases |es|
  {
    if es != [] {
      EventKeepsValid(cfg, s, es[0]);
      RunsStayValid(cfg, Apply(cfg, s, es[0]), es[1..]);
    }
  }

  // ------------------------------------------------------------ one row at a time

  /** The row of job `j` after an event, as a function of that row alone. */
  function RowAfter(cfg: Config, j: string, job: JobRecord, e: Event): JobRecord {
    match e
    case Heartbeat(_, beat, now) =>
      if beat.Leased() && beat.activeJobId == Some(j) then Renewed(job, now, cfg.lease) else job
    case Claim(w, i, token, now) => if i == j then Claimed(job, w, token, now, cfg.lease) else job
    case Complete(i, result, _, _, now) => if i == j then Completed(job, result, now) else job
    case Fail(i, message, retryable, _, _, now) =>
      if i == j then Retried(job, retryable && job.attempts < job.maxAttempts, message, now) else job
    case Cancel(i, now) => if i == j then Dropped(job, now) else job
    case Recover(i, now) => if i == j then Recovered(job, now) else job
    case _ => job
  }

  lemma RowAfterEvent(cfg: Config, s: Store, e: Event, j: string)
    requires Enabled(cfg, s, e) && j in s.jobs
    ensures j in Apply(cfg, s, e).jobs && Apply(cfg, s, e).jobs[j] == RowAfter(cfg, j, s.jobs[j], e)
  {
  }

  lemma NewRow(cfg: Config, s: Store, e: Event, j: string)
    requires Enabled(cfg, s, e) && j !in s.jobs && j in Apply(cfg, s, e).jobs
    ensures Apply(cfg, s, e).jobs[j].status.Queued?
  {
  }

  /** The status an event needs to find on the job it changes. */
  ghost predicate RowReady(j: string, job: JobRecord, e: Event) {
    match e
    case Heartbeat(_, beat, _) => beat.Leased() && beat.activeJobId == Some(j) ==> job.status.Running?
    case Claim(_, i, _, _) => i == j ==> job.status.Queued? && job.attempts < job.maxAttempts
    case Complete(i, _, _, _, _) => i == j ==> job.status.Running?
    case Fail(i, _, _, _, _, _) => i == j ==> job.status.Running?
    case Cancel(i, _) => i == j ==> !job.status.Terminal()
    case Recover(i, _) => i == j ==> job.status.Running?
    case _ => true
  }

  lemma RowReadyWhenEnabled(cfg: Config, s: Store, e: Event, j: string)
    requires Enabled(cfg, s, e) && j in s.jobs
    ensures RowReady(j, s.jobs[j], e)
  {
  }

  /** The event renews the lease of `j`. */
  predicate Renews(e: Event, j: string) {
    e.Heartbeat? && e.beat.Leased() && e.beat.activeJobId == Some(j)
  }

  predicate Holds(job: JobRecord, token: string) {
    job.status.Running? && job.leaseToken == Some(token)
  }

  lemma RowKeepsToken(cfg: Config, j: string, job: JobRecord, e: Event, token: string)
    requires RowReady(j, job, e) && (e.Claim? && e.job == j ==> e.token != token)
    requires Holds(RowAfter(cfg, j, job, e), token)
    ensures Holds(job, token) && (Renews(e, j) || RowAfter(cfg, j, job, e).leaseExpiresAt == job.leaseExpiresAt)
  {
  }

  /** Nobody comes to hold an issued token who did not hold it before. */
  lemma TokenStays(cfg: Config, s: Store, e: Event, j: string, token: string)
    requires Enabled(cfg, s, e) && token in s.tokens
    requires j in Apply(cfg, s, e).jobs && Holds(Apply(cfg, s, e).jobs[j], token)
    ensures j in s.jobs && Holds(s.jobs[j], token)
    ensures Renews(e, j) || Apply(cfg, s, e).jobs[j].leaseExpiresAt == s.jobs[j].leaseExpiresAt
  {
    if j in s.jobs {
      RowAfterEvent(cfg, s, e, j);
      RowReadyWhenEnabled(cfg, s, e, j);
      TokenIsNew(cfg, s, e, token);
      hide Apply, Enabled, RowAfter, RowReady;
      RowKeepsToken(cfg, j, s.jobs[j], e, token);
    } else {
      NewRow(cfg, s, e, j);
      assert false;
    }
  }

  lemma TokenIsNew(cfg: Config, s: Store, e: Event, token: string)
    requires Enabled(cfg, s, e) && token in s.tokens
    ensures e.Claim? ==> e.token != token
    ensures token in Apply(cfg, s, e).tokens
  {
  }

  // ----------------------------------------------------------------- fencing

  /** Some job runs under this token. */
  ghost predicate Live(s: Store, token: string) {
    exists j :: j in s.jobs && s.jobs[j].status.Running? && s.jobs[j].leaseToken == Some(token)
  }

  /** The event is a job write or lease renewal that presents `token`. */
  predicate Presents(e: Event, token: string) {
    match e
    case Complete(_, _, _, t, _) => t == token
    case Fail(_, _, _, _, t, _) => t == token
    case Heartbeat(_, beat, _) => beat.leaseToken == Some(token)
    case _ => false
  }

  lemma PresentingNeedsLive(cfg: Config, s: Store, e: Event, token: string)
    requires Enabled(cfg, s, e) && Presents(e, token)
    ensures Live(s, token)
  {
    if e.Heartbeat? {
      assert s.jobs[e.beat.activeJobId.value].leaseToken == Some(token);
    } else {
      assert s.jobs[e.job].leaseToken == Some(token);
    }
  }

  lemma DeadStaysDeadOneStep(cfg: Config, s: Store, e: Event, token: string)
    requires Valid(s) && Enabled(cfg, s, e) && token in s.tokens && !Live(s, token)
    ensures token in Apply(cfg, s, e).tokens && !Live(Apply(cfg, s, e), token)
  {
    hide Valid, Enabled, Apply;
    TokenIsNew(cfg, s, e, token);
    var t := Apply(cfg, s, e);
    forall j | j in t.jobs ensures !(t.jobs[j].status.Running? && t.jobs[j].leaseToken == Some(token)) {
      if Holds(t.jobs[j], token) { TokenStays(cfg, s, e, j, token); }
    }
  }

  /** Fencing: once no job runs under an issued token, no later complete, fail or
      renewing heartbeat that presents it is ever accepted. */
  lemma {:induction false} Fencing(cfg: Config, s: Store, es: seq<Event>, token: string)
    requires Valid(s) && Accepts(cfg, s, es) && token in s.tokens && !Live(s, token)
    ensures forall i :: 0 <= i < |es| ==> !Presents(es[i], token)
    ensures !Live(Replay(cfg, s, es), token)
    decreases |es|
  {
    if es != [] {
      if Presents(es[0], token) { PresentingNeedsLive(cfg, s, es[0], token); }
      EventKeepsValid(cfg, s, es[0]);
      DeadStaysDeadOneStep(cfg, s, es[0], token);
      Fencing(cfg, Apply(cfg, s, es[0]), es[1..], token);
      forall i | 0 <= i < |es| ensures !Presents(es[i], token) {
        if i > 0 { assert es[i] == es[1..][i-1]; }
      }
    }
  }

  /** The event ends the running attempt of `j`. */
  ghost predicate EndsAttempt(cfg: Config, s: Store, e: Event, j: string) {
    && Enabled(cfg, s, e) && j in s.jobs && s.jobs[j].status.Running?
    && j in Apply(cfg, s, e).jobs && !Apply(cfg, s, e).jobs[j].status.Running?
  }

  /** Whichever event ends an attempt, its token is dead from then on. */
  lemma EndKillsToken(cfg: Config, s: Store, e: Event, j: string)
    requires Valid(s) && EndsAttempt(cfg, s, e, j)
    ensures s.jobs[j].leaseToken.Some? && s.jobs[j].leaseToken.value in Apply(cfg, s, e).tokens
    ensures !Live(Apply(cfg, s, e), s.jobs[j].leaseToken.value)
  {
    hide Enabled, Apply, WorkersShaped, CountersExact, RunningFits, Exclusive;
    var t := Apply(cfg, s, e);
    assert JobShape(j, s.jobs[j], s.tokens);
    hide JobsShaped, JobShape;
    var token := s.jobs[j].leaseToken.value;
    TokenIsNew(cfg, s, e, token);
    forall i | i in t.jobs ensures !(t.jobs[i].status.Running? && t.jobs[i].leaseToken == Some(token)) {
      if Holds(t.jobs[i], token) { TokenStays(cfg, s, e, i, token); }
    }
  }

  /** The moment an event speaks of; expiry marking carries none. */
  function Moment(e: Event): Option<int> {
    match e
    case Register(_, now) => Some(now)
    case SetState(_, _, now) => Some(now)
    case Heartbeat(_, _, now) => Some(now)
    case MarkOffline(_) => None
    case Submit(_, _, _, now) => Some(now)
    case Claim(_, _, _, now) => Some(now)
    case Complete(_, _, _, _, now) => Some(now)
    case Fail(_, _, _, _, _, now) => Some(now)
    case Cancel(_, now) => Some(now)
    case Recover(_, now) => Some(now)
  }

  /** Every running holder of `token` is past its deadline at `now`. */
  ghost predicate Lapsed(s: Store, token: string, now: int) {
    forall j :: j in s.jobs && s.jobs[j].status.Running? && s.jobs[j].leaseToken == Some(token) ==>
      s.jobs[j].leaseExpiresAt.Some? && s.jobs[j].leaseExpiresAt.value <= now
  }

  /** With clocks that never run behind `now`, a lapsed lease is never revived and
      its token is never accepted again. */
  lemma {:induction false} LapsedStaysLapsed(cfg: Config, s: Store, es: seq<Event>, token: string, now: int)
    requires Valid(s) && Accepts(cfg, s, es) && token in s.tokens && Lapsed(s, token, now)
    requires forall i :: 0 <= i < |es| && Moment(es[i]).Some? ==> now <= Moment(es[i]).value
    ensures Lapsed(Replay(cfg, s, es), token, now)
    ensures forall i :: 0 <= i < |es| ==> !Presents(es[i], token)
    decreases |es|
  {
    if es != [] {
      var e, t := es[0], Apply(cfg, s, es[0]);
      assert Moment(e).Some? ==> now <= Moment(e).value;
      assert !Presents(e, token);
      EventKeepsValid(cfg, s, e);
      LapsedOneStep(cfg, s, e, token, now);
      forall i | 0 <= i < |es[1..]| && Moment(es[1..][i]).Some? ensures now <= Moment(es[1..][i]).value {
        assert es[1..][i] == es[i+1];
      }
      LapsedStaysLapsed(cfg, t, es[1..], token, now);
      forall i | 0 <= i < |es| ensures !Presents(es[i], token) {
        if i > 0 { assert es[i] == es[1..][i-1]; }
      }
    }
  }

  lemma LapsedRefused(cfg: Config, s: Store, e: Event, token: string, now: int)
    requires Enabled(cfg, s, e) && Lapsed(s, token, now)
    requires Moment(e).Some? ==> now <= Moment(e).value
    ensures !Presents(e, token)
  {
  }

  lemma LapsedNotRenewed(cfg: Config, s: Store, e: Event, j: string, token: string, now: int)
    requires Enabled(cfg, s, e) && j in s.jobs && Holds(s.jobs[j], token) && Lapsed(s, token, now)
    requires Moment(e).Some? ==> now <= Moment(e).value
    ensures !Renews(e, j)
  {
  }

  lemma LapsedOneStep(cfg: Config, s: Store, e: Event, token: string, now: int)
    requires Valid(s) && Enabled(cfg, s, e) && token in s.tokens && Lapsed(s, token, now)
    requires Moment(e).Some? ==> now <= Moment(e).value
    ensures token in Apply(cfg, s, e).tokens && Lapsed(Apply(cfg, s, e), token, now)
    ensures !Presents(e, token)
  {
    hide Apply, Valid, Enabled, Presents, Renews;
    var t := Apply(cfg, s, e);
    TokenIsNew(cfg, s, e, token);
    LapsedRefused(cfg, s, e, token, now);
    forall j | j in t.jobs && t.jobs[j].status.Running? && t.jobs[j].leaseToken == Some(token)
      ensures t.jobs[j].leaseExpiresAt.Some? && t.jobs[j].leaseExpiresAt.value <= now
    {
      TokenStays(cfg, s, e, j, token);
      LapsedNotRenewed(cfg, s, e, j, token, now);
    }
  }

  /** At one moment a running job answers to exactly one authority: its holder's
      token is accepted, or recovery takes it. */
  lemma OneAuthority(cfg: Config, s: Store, j: string, now: int)
    requires Valid(s) && j in s.jobs && s.jobs[j].status.Running?
    ensures s.jobs[j].assignedWorker.Some? && s.jobs[j].leaseToken.Some?
    ensures forall result :: Enabled(cfg, s, Complete(j, result, s.jobs[j].assignedWorker.value, s.jobs[j].leaseToken.value, now))
                             <==> !Enabled(cfg, s, Recover(j, now))
    ensures forall message, retryable :: Enabled(cfg, s, Fail(j, message, retryable, s.jobs[j].assignedWorker.value, s.jobs[j].leaseToken.value, now))
                             <==> !Enabled(cfg, s, Recover(j, now))
  {
    assert JobShape(j, s.jobs[j], s.tokens);
  }

  // --------------------------------------------------------------- lifecycle

  /** What is left of a job's life; every change of status lowers it. */
  function Measure(job: JobRecord): int {
    match job.status
    case Queued => 2 * (job.maxAttempts - job.attempts) + 1
    case Running => 2 * (job.maxAttempts - job.attempts) + 2
    case _ => 0
  }

  /** Which status an event leads to: only the events that name the job move it. */
  predicate Leads(before: JobRecord, after: JobRecord, e: Event, j: string) {
    if e.Claim? && e.job == j then before.status.Queued? && after.status.Running?
    else if e.Complete? && e.job == j then before.status.Running? && after.status.Succeeded?
    else if e.Fail? && e.job == j then
      && before.status.Running?
      && after.status == (if e.retryable && before.attempts < before.maxAttempts then Queued else JobStatus.Failed)
    else if e.Recover? && e.job == j then
      before.status.Running? && after.status == (if before.attempts < before.maxAttempts then Queued else JobStatus.Failed)
    else if e.Cancel? && e.job == j then !before.status.Terminal() && after.status.Cancelled?
    else after.status == before.status
  }

  /** Jobs never disappear, terminal rows never change, each event leads where its kind
      says, and a change of status strictly lowers the measure, which never rises. */
  lemma LifecycleStep(cfg: Config, s: Store, e: Event, j: string)
    requires Valid(s) && Enabled(cfg, s, e) && j in s.jobs
    ensures j in Apply(cfg, s, e).jobs
    ensures s.jobs[j].status.Terminal() ==> Apply(cfg, s, e).jobs[j] == s.jobs[j]
    ensures Leads(s.jobs[j], Apply(cfg, s, e).jobs[j], e, j)
    ensures Apply(cfg, s, e).jobs[j].status != s.jobs[j].status ==>
              Measure(Apply(cfg, s, e).jobs[j]) < Measure(s.jobs[j])
    ensures 0 <= Measure(Apply(cfg, s, e).jobs[j]) <= Measure(s.jobs[j])
    ensures Apply(cfg, s, e).jobs[j].maxAttempts == s.jobs[j].maxAttempts
    ensures Apply(cfg, s, e).jobs[j].attempts == s.jobs[j].attempts + (if e.Claim? && e.job == j then 1 else 0)
  {
    assert JobShape(j, s.jobs[j], s.tokens);
    RowAfterEvent(cfg, s, e, j);
    RowReadyWhenEnabled(cfg, s, e, j);
    LifecycleOfRow(cfg, j, s.jobs[j], e);
  }

  lemma LifecycleOfRow(cfg: Config, j: string, job: JobRecord, e: Event)
    requires RowReady(j, job, e) && 0 <= job.attempts <= job.maxAttempts
    ensures var after := RowAfter(cfg, j, job, e);
      && (job.status.Terminal() ==> after == job)
      && Leads(job, after, e, j)
      && (after.status != job.status ==> Measure(after) < Measure(job))
      && 0 <= Measure(after) <= Measure(job)
      && after.maxAttempts == job.maxAttempts
      && after.attempts == job.attempts + (if e.Claim? && e.job == j then 1 else 0)
  {
  }

  function ClaimsOf(es: seq<Event>, j: string): nat {
    if es == [] then 0 else (if es[0].Claim? && es[0].job == j then 1 else 0) + ClaimsOf(es[1..], j)
  }

  /** Over a whole run the claims of one job are counted by its attempts, so a job
      is claimed at most as often as its budget allows. */
  lemma {:induction false} ClaimsBounded(cfg: Config, s: Store, es: seq<Event>, j: string)
    requires Valid(s) && Accepts(cfg, s, es) && j in s.jobs
    ensures j in Replay(cfg, s, es).jobs
    ensures Replay(cfg, s, es).jobs[j].attempts == s.jobs[j].attempts + ClaimsOf(es, j)
    ensures s.jobs[j].attempts + ClaimsOf(es, j) <= s.jobs[j].maxAttempts
    ensures s.jobs[j].status.Terminal() ==> Replay(cfg, s, es).jobs[j] == s.jobs[j]
    decreases |es|
  {
    if es == [] {
      assert JobShape(j, s.jobs[j], s.tokens);
    } else {
      EventKeepsValid(cfg, s, es[0]);
      LifecycleStep(cfg, s, es[0], j);
      ClaimsBounded(cfg, Apply(cfg, s, es[0]), es[1..], j);
    }
  }

  ghost function StatusChanges(cfg: Config, s: Store, es: seq<Event>, j: string): nat
    requires Accepts(cfg, s, es) && j in s.jobs && Valid(s)
    decreases |es|
  {
    if es == [] then 0 else
      EventKeepsValid(cfg, s, es[0]); LifecycleStep(cfg, s, es[0], j);
      var t := Apply(cfg, s, es[0]);
      (if t.jobs[j].status != s.jobs[j].status then 1 else 0) + StatusChanges(cfg, t, es[1..], j)
  }

  /** A job changes status at most as often as its measure says, however long the run. */
  lemma {:induction false} StatusChangesBounded(cfg: Config, s: Store, es: seq<Event>, j: string)
    requires Accepts(cfg, s, es) && j in s.jobs && Valid(s)
    ensures StatusChanges(cfg, s, es, j) <= Measure(s.jobs[j])
    decreases |es|
  {
    LifecycleStart(s, j);
    if es != [] {
      EventKeepsValid(cfg, s, es[0]);
      LifecycleStep(cfg, s, es[0], j);
      StatusChangesBounded(cfg, Apply(cfg, s, es[0]), es[1..], j);
    }
  }

  lemma LifecycleStart(s: Store, j: string)
    requires Valid(s) && j in s.jobs
    ensures 0 <= Measure(s.jobs[j]) <= 2 * s.jobs[j].maxAttempts + 1
  {
    assert JobShape(j, s.jobs[j], s.tokens);
  }

  // ------------------------------------------------------------- idempotency

  /** The request equals the stored job; the availability time counts only when explicit. */
  predicate SubmissionMatches(job: JobRecord, sub: JobSubmission) {
    && job.capability == sub.capability && job.payload == sub.payload
    && job.requirements == sub.requirements && job.priority == sub.priority
    && job.maxAttempts == sub.maxAttempts
    && (sub.availableAt.Some? ==> job.availableAt == sub.availableAt.value)
  }

  datatype SubmitOutcome = Fresh | Replayed(job: string) | Clash

  /** What submitting does in a store: a new job, the job that holds the key, or a conflict. */
  ghost function SubmitResult(s: Store, sub: JobSubmission): SubmitOutcome {
    if sub.idempotencyKey.Some? && exists j :: j in s.jobs && s.jobs[j].idempotencyKey == sub.idempotencyKey then
      var j :| j in s.jobs && s.jobs[j].idempotencyKey == sub.idempotencyKey;
      if SubmissionMatches(s.jobs[j], sub) then Replayed(j) else Clash
    else Fresh
  }

  /** A key belongs to at most one job, so the outcome names that job whichever way it is found. */
  lemma KeyFindsJob(s: Store, sub: JobSubmission, j: string)
    requires Valid(s) && j in s.jobs && sub.idempotencyKey.Some? && s.jobs[j].idempotencyKey == sub.idempotencyKey
    ensures SubmitResult(s, sub) == if SubmissionMatches(s.jobs[j], sub) then Replayed(j) else Clash
  {
    var i :| i in s.jobs && s.jobs[i].idempotencyKey == sub.idempotencyKey
             && SubmitResult(s, sub) == if SubmissionMatches(s.jobs[i], sub) then Replayed(i) else Clash;
    assert i == j;
  }

  /** A keyed submission gets a job back exactly when the job with its key was asked for in the
      same words, an availability time counting only if one is named; it is new exactly when no
      job has its key. */
  lemma SubmitAnswers(s: Store, sub: JobSubmission, j: string)
    requires Valid(s)
    ensures SubmitResult(s, sub).Fresh? <==>
              sub.idempotencyKey.None? || forall i :: i in s.jobs ==> s.jobs[i].idempotencyKey != sub.idempotencyKey
    ensures SubmitResult(s, sub) == Replayed(j) <==>
              && sub.idempotencyKey.Some? && j in s.jobs && s.jobs[j].idempotencyKey == sub.idempotencyKey
              && s.jobs[j].capability == sub.capability && s.jobs[j].payload == sub.payload
              && s.jobs[j].requirements == sub.requirements && s.jobs[j].priority == sub.priority
              && s.jobs[j].maxAttempts == sub.maxAttempts
              && (sub.availableAt.None? || sub.availableAt == Some(s.jobs[j].availableAt))
  {
    if sub.idempotencyKey.Some? && j in s.jobs && s.jobs[j].idempotencyKey == sub.idempotencyKey {
      KeyFindsJob(s, sub, j);
    }
  }

  /** The time of the last requeue of `j` in a run, if any. */
  ghost function LastRequeue(cfg: Config, s: Store, es: seq<Event>, j: string): Option<int>
    requires Accepts(cfg, s, es)
    decreases |es|
  {
    if es == [] then None else
      var t := Apply(cfg, s, es[0]);
      var later := LastRequeue(cfg, t, es[1..], j);
      if later.Some? then later
      else if j in s.jobs && j in t.jobs && s.jobs[j].status.Running? && t.jobs[j].status.Queued? then Moment(es[0])
      else None
  }

  /** The request fields of a job never change; its availability time is that of the
      last requeue, or the original one when it never went back to the queue. */
  lemma {:induction false} RequestKept(cfg: Config, s: Store, es: seq<Event>, j: string)
    requires Valid(s) && Accepts(cfg, s, es) && j in s.jobs
    ensures Valid(Replay(cfg, s, es)) && j in Replay(cfg, s, es).jobs
    ensures var job := Replay(cfg, s, es).jobs[j];
      && job.capability == s.jobs[j].capability && job.payload == s.jobs[j].payload
      && job.requirements == s.jobs[j].requirements && job.priority == s.jobs[j].priority
      && job.maxAttempts == s.jobs[j].maxAttempts && job.idempotencyKey == s.jobs[j].idempotencyKey
      && job.sequence == s.jobs[j].sequence && job.createdAt == s.jobs[j].createdAt
      && job.availableAt == (if LastRequeue(cfg, s, es, j).Some? then LastRequeue(cfg, s, es, j).value else s.jobs[j].availableAt)
    decreases |es|
  {
    if es != [] {
      EventKeepsValid(cfg, s, es[0]);
      RequestKeptOneStep(cfg, s, es[0], j);
      RequestKept(cfg, Apply(cfg, s, es[0]), es[1..], j);
    }
  }

  lemma RequestKeptOneStep(cfg: Config, s: Store, e: Event, j: string)
    requires Valid(s) && Enabled(cfg, s, e) && j in s.jobs
    ensures j in Apply(cfg, s, e).jobs
    ensures var job := Apply(cfg, s, e).jobs[j];
      && job.capability == s.jobs[j].capability && job.payload == s.jobs[j].payload
      && job.requirements == s.jobs[j].requirements && job.priority == s.jobs[j].priority
      && job.maxAttempts == s.jobs[j].maxAttempts && job.idempotencyKey == s.jobs[j].idempotencyKey
      && job.sequence == s.jobs[j].sequence && job.createdAt == s.jobs[j].createdAt
      && (if s.jobs[j].status.Running? && job.status.Queued? then Moment(e) == Some(job.availableAt)
          else job.availableAt == s.jobs[j].availableAt)
  {
    RowAfterEvent(cfg, s, e, j);
    RowReadyWhenEnabled(cfg, s, e, j);
    RequestOfRow(cfg, j, s.jobs[j], e);
  }

  lemma RequestOfRow(cfg: Config, j: string, before: JobRecord, e: Event)
    requires RowReady(j, before, e)
    ensures var job := RowAfter(cfg, j, before, e);
      && job.capability == before.capability && job.payload == before.payload
      && job.requirements == before.requirements && job.priority == before.priority
      && job.maxAttempts == before.maxAttempts && job.idempotencyKey == before.idempotencyKey
      && job.sequence == before.sequence && job.createdAt == before.createdAt
      && (if before.status.Running? && job.status.Queued? then Moment(e) == Some(job.availableAt)
          else job.availableAt == before.availableAt)
  {
  }

  /** Replaying a keyed submission after any run returns the same job id exactly when
      the request named no availability time or the job's last requeue, if there was
      one, happened at precisely that time. */
  lemma ReplayReturnsSameJob(cfg: Config, s: Store, j: string, sub: JobSubmission, sequence: int, now: int, es: seq<Event>)
    requires Valid(s) && sub.idempotencyKey.Some?
    requires Enabled(cfg, s, Submit(j, sub, sequence, now))
    requires Accepts(cfg, Apply(cfg, s, Submit(j, sub, sequence, now)), es)
    ensures var s1 := Apply(cfg, s, Submit(j, sub, sequence, now));
      var requeued := LastRequeue(cfg, s1, es, j);
      SubmitResult(Replay(cfg, s1, es), sub) == Replayed(j)
      <==> (sub.availableAt.None? || requeued.None? || requeued == sub.availableAt)
  {
    var e := Submit(j, sub, sequence, now);
    var s1 := Apply(cfg, s, e);
    EventKeepsValid(cfg, s, e);
    RequestKept(cfg, s1, es, j);
    KeyFindsJob(Replay(cfg, s1, es), sub, j);
  }

  const DEADLINES := Config(10, 10)
  const CPU_WORKER := WorkerSpec("w", "cpu", ResourceShape(0, 0, 0), [], [], {"c"}, map[])
  const TIMED :=
    JobSubmission("c", "", JobRequirements(None, {}, map[], {}, 0, 0, 0), 0, 2, Some("k"), Some(5))

  /** A run in which the job was asked for at a time, claimed, failed and retried later. */
  const RETRIED_RUN :=
    [Register(WorkerRegistration(CPU_WORKER, 1, map[]), 5), Submit("j", TIMED, 1, 5),
     Claim("w", "j", "t", 5), Fail("j", "", true, "w", "t", 7)]

  lemma WorkerJoins() returns (s: Store)
    ensures Enabled(DEADLINES, EMPTY, RETRIED_RUN[0]) && s == Apply(DEADLINES, EMPTY, RETRIED_RUN[0])
    ensures s.jobs == map[] && s.tokens == {} && s.workers.Keys == {"w"} && s.workers["w"].spec == CPU_WORKER
    ensures var w := s.workers["w"]; w.state.Online? && w.lastSeenAt == 5 && w.activeJobs == 0 && w.maxConcurrency == 1
  {
    s := Apply(DEADLINES, EMPTY, RETRIED_RUN[0]);
    assert RunningOn(EMPTY.jobs, "w") == {};
  }

  lemma JobTimed(s: Store) returns (t: Store)
    requires s.jobs == map[]
    ensures Enabled(DEADLINES, s, RETRIED_RUN[1]) && t == Apply(DEADLINES, s, RETRIED_RUN[1])
    ensures t == s.(jobs := map["j" := NewJob("j", TIMED, 1, 5)])
  {
    t := Apply(DEADLINES, s, RETRIED_RUN[1]);
  }

  lemma AttemptFails(s: Store) returns (t: Store)
    requires s.jobs == map["j" := NewJob("j", TIMED, 1, 5)] && s.tokens == {} && "w" in s.workers
    requires var w := s.workers["w"];
             w.spec == CPU_WORKER && w.state.Online? && w.lastSeenAt == 5 && w.activeJobs == 0 && w.maxConcurrency == 1
    ensures Accepts(DEADLINES, s, RETRIED_RUN[2..]) && t == Replay(DEADLINES, s, RETRIED_RUN[2..])
    ensures "j" in t.jobs && t.jobs["j"].idempotencyKey == Some("k") && t.jobs["j"].availableAt == 7
  {
    var claim, fail := RETRIED_RUN[2], RETRIED_RUN[3];
    var running := Apply(DEADLINES, s, claim);
    t := Apply(DEADLINES, running, fail);
    assert RETRIED_RUN[2..][1..] == [fail] && [fail][1..] == [];
    assert Accepts(DEADLINES, t, []) && Replay(DEADLINES, t, []) == t;
    assert Accepts(DEADLINES, running, [fail]) && Replay(DEADLINES, running, [fail]) == t;
  }

  /** Submitting the same request again after that run is a conflict. */
  lemma RetryClashes()
    ensures Accepts(DEADLINES, EMPTY, RETRIED_RUN)
    ensures SubmitResult(Replay(DEADLINES, EMPTY, RETRIED_RUN), TIMED) == Clash
  {
    hide Enabled, Apply, Valid, SubmitResult;
    var joined := WorkerJoins();
    var queued := JobTimed(joined);
    var t := AttemptFails(queued);
    assert RETRIED_RUN[1..][0] == RETRIED_RUN[1] && RETRIED_RUN[1..][1..] == RETRIED_RUN[2..];
    assert Accepts(DEADLINES, joined, RETRIED_RUN[1..]) && Replay(DEADLINES, joined, RETRIED_RUN[1..]) == t;
    EmptyIsValid();
    RunsStayValid(DEADLINES, EMPTY, RETRIED_RUN);
    KeyFindsJob(t, TIMED, "j");
  }
}
