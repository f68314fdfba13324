/** The reference repository: dictionaries updated in place by methods that run one
    at a time.  A dictionary is a map plus the insertion order of its keys, which is
    the order its loops visit.  Every method is proved to be the events of the ledger
    it stands for, to fail exactly when that event is not enabled, and to change
    nothing when it fails.  uuid4 is a parameter outside everything issued so far. */
module InMemory {
  import opened Contracts
  import opened Ledger
  import opened LedgerInvariant
  import opened LedgerRuns
  import opened LedgerOutcomes

  datatype Error = NotFound | Conflict

  datatype Result<T> = Ok(value: T) | Err(error: Error)

  /** `order` lists exactly `keys`, each once. */
  ghost predicate Lists(order: seq<string>, keys: set<string>) {
    && (forall k :: k in order <==> k in keys)
    && (forall i, j :: 0 <= i < j < |order| ==> order[i] != order[j])
  }

  /** Writing a dictionary entry: existing keys keep their place, new ones go last. */
  function Touch(order: seq<string>, k: string): seq<string> {
    if k in order then order else order + [k]
  }

  lemma TouchLists(order: seq<string>, keys: set<string>, k: string)
    requires Lists(order, keys)
    ensures Lists(Touch(order, k), keys + {k})
  {
  }

  /** The keys already visited after `n` steps of a loop. */
  function Visited(order: seq<string>, n: nat): set<string>
    requires n <= |order|
  {
    set i | 0 <= i < n :: order[i]
  }

  lemma VisitedAll(order: seq<string>, keys: set<string>)
    requires Lists(order, keys)
    ensures Visited(order, |order|) == keys
  {
    forall k | k in keys ensures k in Visited(order, |order|) {
      var i :| 0 <= i < |order| && order[i] == k;
    }
  }

  lemma VisitedNext(order: seq<string>, keys: set<string>, n: nat)
    requires Lists(order, keys) && n < |order|
    ensures Visited(order, n + 1) == Visited(order, n) + {order[n]}
    ensures order[n] !in Visited(order, n) && order[n] in keys
  {
  }

  /** The members of `chosen` in the order of the dictionary. */
  function Pick(order: seq<string>, chosen: set<string>): seq<string> {
    if order == [] then [] else (if order[0] in chosen then [order[0]] else []) + Pick(order[1..], chosen)
  }

  lemma {:induction false} PickAppend(order: seq<string>, k: string, chosen: set<string>)
    ensures Pick(order + [k], chosen) == Pick(order, chosen) + (if k in chosen then [k] else [])
    decreases |order|
  {
    if order == [] {
      assert order + [k] == [k];
    } else {
      assert (order + [k])[1..] == order[1..] + [k];
      PickAppend(order[1..], k, chosen);
    }
  }

  /** `Pick` lists exactly the chosen keys of the dictionary, each once. */
  lemma {:induction false} PickLists(order: seq<string>, keys: set<string>, chosen: set<string>)
    requires Lists(order, keys)
    ensures Lists(Pick(order, chosen), keys * chosen)
    decreases |order|
  {
    if order != [] {
      assert forall k :: k in order[1..] <==> k in keys - {order[0]} by {
        forall k ensures k in order[1..] <==> k in keys - {order[0]} {
          if k in order[1..] {
            var i :| 0 <= i < |order[1..]| && order[1..][i] == k;
            assert order[i+1] == k;
          }
          if k in keys - {order[0]} {
            var i :| 0 <= i < |order| && order[i] == k;
            assert order[1..][i-1] == k;
          }
        }
      }
      PickLists(order[1..], keys - {order[0]}, chosen);
      var rest := Pick(order[1..], chosen);
      assert forall i :: 0 <= i < |rest| ==> rest[i] in rest;
    } else {
      assert keys == {} by { forall k ensures k !in keys { assert k in order <==> k in keys; } }
    }
  }

  /** `rows` are the rows of `ids`, in that order. */
  ghost predicate RowsOf<T>(rows: seq<T>, ids: seq<string>, table: map<string, T>) {
    |rows| == |ids| && forall i :: 0 <= i < |ids| ==> ids[i] in table && rows[i] == table[ids[i]]
  }

  lemma OfflineStep(before: map<string, WorkerRecord>, done: set<string>, w: string)
    requires w in before && w !in done
    ensures w in AllOffline(before, done) && AllOffline(before, done)[w] == before[w]
    ensures AllOffline(before, done)[w := before[w].(state := Offline)] == AllOffline(before, done + {w})
  {
  }

  /** The state of the expiry loop after `i` workers. */
  ghost predicate Expiring(before: map<string, WorkerRecord>, order: seq<string>, stale: set<string>, i: nat,
                           workers: map<string, WorkerRecord>, expired: seq<WorkerRecord>)
  {
    && Lists(order, before.Keys) && i <= |order|
    && workers == AllOffline(before, stale * Visited(order, i))
    && RowsOf(expired, Pick(order[..i], stale), AllOffline(before, stale))
  }

  lemma ExpiringStep(before: map<string, WorkerRecord>, order: seq<string>, stale: set<string>, i: nat,
                     workers: map<string, WorkerRecord>, expired: seq<WorkerRecord>)
    requires Expiring(before, order, stale, i, workers, expired) && i < |order| && stale <= before.Keys
    ensures order[i] in before && order[i] in workers && workers[order[i]] == before[order[i]]
    ensures var w := order[i];
      if w in stale then Expiring(before, order, stale, i + 1, workers[w := before[w].(state := Offline)], expired + [before[w].(state := Offline)])
      else Expiring(before, order, stale, i + 1, workers, expired)
  {
    hide Visited, Pick, AllOffline;
    var w, done := order[i], stale * Visited(order, i);
    VisitedNext(order, before.Keys, i);
    OfflineStep(before, done, w);
    assert order[..i+1] == order[..i] + [w];
    PickAppend(order[..i], w, stale);
    if w in stale {
      assert stale * Visited(order, i + 1) == done + {w};
      StaleRow(before, stale, w);
    } else {
      assert stale * Visited(order, i + 1) == done;
    }
  }

  lemma ExpiringStart(before: map<string, WorkerRecord>, order: seq<string>, stale: set<string>)
    requires Lists(order, before.Keys)
    ensures Expiring(before, order, stale, 0, before, [])
  {
    assert AllOffline(before, {}) == before && stale * Visited(order, 0) == {};
  }

  lemma ExpiringEnd(before: map<string, WorkerRecord>, order: seq<string>, stale: set<string>,
                    workers: map<string, WorkerRecord>, expired: seq<WorkerRecord>)
    requires Expiring(before, order, stale, |order|, workers, expired) && stale <= before.Keys
    ensures workers == AllOffline(before, stale) && RowsOf(expired, Pick(order, stale), workers)
  {
    VisitedAll(order, before.Keys);
    assert stale * Visited(order, |order|) == stale;
    assert order[..|order|] == order;
  }

  lemma StaleRow(before: map<string, WorkerRecord>, stale: set<string>, w: string)
    requires w in before && w in stale
    ensures w in AllOffline(before, stale) && AllOffline(before, stale)[w] == before[w].(state := Offline)
  {
  }

  /** How the dictionaries' orders, the idempotency index and the sequence counter
      belong to the rows. */
  ghost predicate Indexed(s: Store, workerOrder: seq<string>, jobOrder: seq<string>, idempotency: map<string, string>, sequence: nat) {
    && Lists(workerOrder, s.workers.Keys) && Lists(jobOrder, s.jobs.Keys)
    && Sequenced(s.jobs, jobOrder, sequence) && Keyed(s.jobs, idempotency)
  }

  /** The jobs are listed by rising sequence number, none above the counter. */
  ghost predicate Sequenced(jobs: map<string, JobRecord>, jobOrder: seq<string>, sequence: nat)
    requires Lists(jobOrder, jobs.Keys)
  {
    && (forall j :: j in jobs ==> jobs[j].sequence <= sequence)
    && (forall i, k :: 0 <= i < k < |jobOrder| ==> jobs[jobOrder[i]].sequence < jobs[jobOrder[k]].sequence)
  }

  /** The index leads from each key to the one job that has it. */
  ghost predicate Keyed(jobs: map<string, JobRecord>, idempotency: map<string, string>) {
    && (forall k :: k in idempotency ==> idempotency[k] in jobs && jobs[idempotency[k]].idempotencyKey == Some(k))
    && (forall j :: j in jobs && jobs[j].idempotencyKey.Some? ==>
          jobs[j].idempotencyKey.value in idempotency && idempotency[jobs[j].idempotencyKey.value] == j)
  }

  lemma IndexedLists(s: Store, workerOrder: seq<string>, jobOrder: seq<string>, idempotency: map<string, string>, sequence: nat)
    requires Indexed(s, workerOrder, jobOrder, idempotency, sequence)
    ensures Lists(workerOrder, s.workers.Keys) && Lists(jobOrder, s.jobs.Keys)
  {
  }

  lemma KeyIndexed(s: Store, workerOrder: seq<string>, jobOrder: seq<string>, idempotency: map<string, string>, sequence: nat, k: string)
    requires Indexed(s, workerOrder, jobOrder, idempotency, sequence) && k in idempotency
    ensures idempotency[k] in s.jobs && s.jobs[idempotency[k]].idempotencyKey == Some(k)
  {
  }

  /** An event that is not a submission keeps every job's identity. */
  lemma JobsKept(cfg: Config, s: Store, e: Event)
    requires Enabled(cfg, s, e) && !e.Submit?
    ensures Apply(cfg, s, e).jobs.Keys == s.jobs.Keys
    ensures forall j :: j in s.jobs ==> SameJob(s.jobs[j], Apply(cfg, s, e).jobs[j])
  {
    forall j | j in s.jobs ensures SameJob(s.jobs[j], Apply(cfg, s, e).jobs[j]) {
      RowAfterEvent(cfg, s, e, j);
    }
  }

  lemma WorkersKept(cfg: Config, s: Store, e: Event)
    requires Enabled(cfg, s, e) && !e.Register?
    ensures Apply(cfg, s, e).workers.Keys == s.workers.Keys
  {
  }

  lemma IndexedSame(s: Store, t: Store, workerOrder: seq<string>, jobOrder: seq<string>, idempotency: map<string, string>, sequence: nat)
    requires Indexed(s, workerOrder, jobOrder, idempotency, sequence)
    requires t.workers.Keys == s.workers.Keys && t.jobs.Keys == s.jobs.Keys
    requires forall j :: j in s.jobs ==> SameJob(s.jobs[j], t.jobs[j])
    ensures Indexed(t, workerOrder, jobOrder, idempotency, sequence)
  {
  }

  /** Events that add no row leave the indexes right. */
  lemma IndexedAfter(cfg: Config, s: Store, e: Event, workerOrder: seq<string>, jobOrder: seq<string>, idempotency: map<string, string>, sequence: nat)
    requires Valid(s) && Enabled(cfg, s, e) && !e.Submit? && !e.Register?
    requires Indexed(s, workerOrder, jobOrder, idempotency, sequence)
    ensures Valid(Apply(cfg, s, e)) && Indexed(Apply(cfg, s, e), workerOrder, jobOrder, idempotency, sequence)
  {
    EventKeepsValid(cfg, s, e);
    JobsKept(cfg, s, e);
    WorkersKept(cfg, s, e);
    IndexedSame(s, Apply(cfg, s, e), workerOrder, jobOrder, idempotency, sequence);
  }

  lemma IndexedAfterRegister(cfg: Config, s: Store, e: Event, workerOrder: seq<string>, jobOrder: seq<string>, idempotency: map<string, string>, sequence: nat)
    requires Valid(s) && Enabled(cfg, s, e) && e.Register?
    requires Indexed(s, workerOrder, jobOrder, idempotency, sequence)
    ensures Valid(Apply(cfg, s, e))
    ensures Indexed(Apply(cfg, s, e), Touch(workerOrder, e.registration.spec.workerId), jobOrder, idempotency, sequence)
  {
    hide Valid, Sequenced, Keyed, Lists;
    EventKeepsValid(cfg, s, e);
    TouchLists(workerOrder, s.workers.Keys, e.registration.spec.workerId);
    assert Apply(cfg, s, e).workers.Keys == s.workers.Keys + {e.registration.spec.workerId};
  }

  lemma SubmitEnabled(cfg: Config, s: Store, id: string, sub: JobSubmission, now: int, workerOrder: seq<string>, jobOrder: seq<string>, idempotency: map<string, string>, sequence: nat)
    requires Indexed(s, workerOrder, jobOrder, idempotency, sequence) && sub.Valid() && id !in s.jobs
    requires sub.idempotencyKey.Some? ==> sub.idempotencyKey.value !in idempotency
    ensures Enabled(cfg, s, Submit(id, sub, sequence + 1, now))
    ensures SubmitResult(s, sub) == SubmitOutcome.Fresh
  {
  }

  lemma IndexedAfterSubmit(cfg: Config, s: Store, e: Event, workerOrder: seq<string>, jobOrder: seq<string>, idempotency: map<string, string>, sequence: nat)
    requires Valid(s) && Enabled(cfg, s, e) && e.Submit? && e.sequence == sequence + 1
    requires Indexed(s, workerOrder, jobOrder, idempotency, sequence)
    ensures Valid(Apply(cfg, s, e))
    ensures Indexed(Apply(cfg, s, e), workerOrder, Touch(jobOrder, e.job), WithKey(idempotency, e.submission.idempotencyKey, e.job), sequence + 1)
  {
    EventKeepsValid(cfg, s, e);
    IndexedNewJob(s, NewJob(e.job, e.submission, e.sequence, e.now), workerOrder, jobOrder, idempotency, sequence);
  }

  function WithKey(idempotency: map<string, string>, key: Option<string>, j: string): map<string, string> {
    if key.Some? then idempotency[key.value := j] else idempotency
  }

  lemma SequencedNewJob(jobs: map<string, JobRecord>, j: string, job: JobRecord, jobOrder: seq<string>, sequence: nat)
    requires Lists(jobOrder, jobs.Keys) && Sequenced(jobs, jobOrder, sequence)
    requires j !in jobs && job.sequence == sequence + 1
    ensures Lists(Touch(jobOrder, j), jobs[j := job].Keys)
    ensures Sequenced(jobs[j := job], Touch(jobOrder, j), sequence + 1)
  {
    var t, order := jobs[j := job], Touch(jobOrder, j);
    TouchLists(jobOrder, jobs.Keys, j);
    assert t.Keys == jobs.Keys + {j};
    forall i, k | 0 <= i < k < |order| ensures t[order[i]].sequence < t[order[k]].sequence {
      assert order[i] in jobOrder;
      if k < |jobOrder| { assert order[k] in jobOrder; }
    }
  }

  lemma KeyedNewJob(jobs: map<string, JobRecord>, j: string, job: JobRecord, idempotency: map<string, string>)
    requires Keyed(jobs, idempotency) && j !in jobs
    requires forall i :: i in jobs && job.idempotencyKey.Some? ==> jobs[i].idempotencyKey != job.idempotencyKey
    ensures Keyed(jobs[j := job], WithKey(idempotency, job.idempotencyKey, j))
  {
  }

  lemma IndexedNewJob(s: Store, job: JobRecord, workerOrder: seq<string>, jobOrder: seq<string>, idempotency: map<string, string>, sequence: nat)
    requires Indexed(s, workerOrder, jobOrder, idempotency, sequence)
    requires job.jobId !in s.jobs && job.sequence == sequence + 1
    requires forall i :: i in s.jobs && job.idempotencyKey.Some? ==> s.jobs[i].idempotencyKey != job.idempotencyKey
    ensures Indexed(s.(jobs := s.jobs[job.jobId := job]), workerOrder, Touch(jobOrder, job.jobId),
                    WithKey(idempotency, job.idempotencyKey, job.jobId), sequence + 1)
  {
    hide Lists, Sequenced, Keyed, Touch, WithKey;
    SequencedNewJob(s.jobs, job.jobId, job, jobOrder, sequence);
    KeyedNewJob(s.jobs, job.jobId, job, idempotency);
  }

  lemma ClaimEnabled(cfg: Config, s: Store, w: string, j: string, token: string, now: int)
    requires w in s.workers && j in s.jobs && now - s.workers[w].lastSeenAt <= cfg.workerTtl && s.workers[w].state.Online?
    requires s.workers[w].activeJobs < s.workers[w].maxConcurrency && Eligible(s.jobs[j], s.workers[w].spec, now)
    requires token != "" && token !in s.tokens
    ensures Enabled(cfg, s, Claim(w, j, token, now))
  {
  }

  lemma JobNamed(s: Store, j: string)
    requires Valid(s) && j in s.jobs
    ensures s.jobs[j].jobId == j
  {
    assert JobShape(j, s.jobs[j], s.tokens);
  }

  /** Distinct sequence numbers make the claim order strict. */
  lemma UniqueFirst(s: Store, j: string, spec: WorkerSpec, now: int)
    requires Valid(s) && j in s.jobs
    requires forall i :: i in s.jobs && Eligible(s.jobs[i], spec, now) ==> ClaimedBefore(s.jobs[j], s.jobs[i])
    ensures forall i :: i in s.jobs && i != j && Eligible(s.jobs[i], spec, now) ==>
              || s.jobs[j].priority > s.jobs[i].priority
              || (s.jobs[j].priority == s.jobs[i].priority && s.jobs[j].sequence < s.jobs[i].sequence)
  {
  }

  // ---------------------------------------------------------------- recovery

  function ExpiredSet(jobs: map<string, JobRecord>, now: int): set<string> {
    set j | j in jobs && Expired(jobs[j], now)
  }

  /** The expired jobs of one worker. */
  function ExpiredOn(jobs: map<string, JobRecord>, w: string, now: int): set<string> {
    set j | j in jobs && Expired(jobs[j], now) && jobs[j].assignedWorker == Some(w)
  }

  function RecoveredRows(jobs: map<string, JobRecord>, done: set<string>, now: int): map<string, JobRecord> {
    map j | j in jobs :: if j in done then Recovered(jobs[j], now) else jobs[j]
  }

  /** The state of the recovery loop after `i` jobs. */
  ghost predicate Recovering(cfg: Config, before: Store, order: seq<string>, now: int, i: nat, s: Store,
                             recovered: seq<JobRecord>, es: seq<Event>)
  {
    && Valid(before) && Lists(order, before.jobs.Keys) && i <= |order|
    && Accepts(cfg, before, es) && Replay(cfg, before, es) == s
    && s.jobs == RecoveredRows(before.jobs, ExpiredSet(before.jobs, now) * Visited(order, i), now)
    && s.workers.Keys == before.workers.Keys
    && (forall w :: w in s.workers ==> s.workers[w] == before.workers[w].(activeJobs := s.workers[w].activeJobs))
    && RowsOf(recovered, Pick(order[..i], ExpiredSet(before.jobs, now)), RecoveredRows(before.jobs, ExpiredSet(before.jobs, now), now))
  }

  lemma RecoveringStep(cfg: Config, before: Store, order: seq<string>, now: int, i: nat, s: Store, recovered: seq<JobRecord>, es: seq<Event>)
    requires Recovering(cfg, before, order, now, i, s, recovered, es) && i < |order|
    ensures order[i] in before.jobs && order[i] in s.jobs && s.jobs[order[i]] == before.jobs[order[i]]
    ensures var j := order[i];
      if Expired(before.jobs[j], now) then
        && Enabled(cfg, s, Recover(j, now))
        && Recovering(cfg, before, order, now, i + 1, Apply(cfg, s, Recover(j, now)), recovered + [Recovered(before.jobs[j], now)], es + [Recover(j, now)])
      else Recovering(cfg, before, order, now, i + 1, s, recovered, es)
  {
    hide Valid, Accepts, Replay, Enabled, Apply, Recovered, Lists, Visited, Pick;
    var j, expired := order[i], ExpiredSet(before.jobs, now);
    VisitedNext(order, before.jobs.Keys, i);
    assert order[..i+1] == order[..i] + [j];
    PickAppend(order[..i], j, expired);
    if j in expired {
      assert expired * Visited(order, i + 1) == expired * Visited(order, i) + {j};
      var e := Recover(j, now);
      RecoverEffect(cfg, s, j, now);
      RowsOfAppend(recovered, Pick(order[..i], expired), RecoveredRows(before.jobs, expired, now), j);
      RecoveredRowsStep(before.jobs, expired * Visited(order, i), j, now);
      ReplayOneMore(cfg, before, es, e);
    } else {
      assert expired * Visited(order, i + 1) == expired * Visited(order, i);
    }
  }

  lemma RowsOfAppend<T>(rows: seq<T>, ids: seq<string>, table: map<string, T>, k: string)
    requires RowsOf(rows, ids, table) && k in table
    ensures RowsOf(rows + [table[k]], ids + [k], table)
  {
  }

  lemma RecoverEffect(cfg: Config, s: Store, j: string, now: int)
    requires j in s.jobs && Expired(s.jobs[j], now)
    ensures Enabled(cfg, s, Recover(j, now))
    ensures var t := Apply(cfg, s, Recover(j, now));
      && t.jobs == s.jobs[j := Recovered(s.jobs[j], now)] && t.workers.Keys == s.workers.Keys
      && (forall w :: w in s.workers ==> t.workers[w] == s.workers[w].(activeJobs := t.workers[w].activeJobs))
  {
  }

  lemma RecoveredRowsStep(jobs: map<string, JobRecord>, done: set<string>, j: string, now: int)
    requires j in jobs && j !in done
    ensures RecoveredRows(jobs, done, now)[j := Recovered(jobs[j], now)] == RecoveredRows(jobs, done + {j}, now)
  {
  }

  lemma ReplayOneMore(cfg: Config, s: Store, es: seq<Event>, e: Event)
    requires Accepts(cfg, s, es) && Enabled(cfg, Replay(cfg, s, es), e)
    ensures Accepts(cfg, s, es + [e])
    ensures Replay(cfg, s, es + [e]) == Apply(cfg, Replay(cfg, s, es), e)
  {
    ReplayAppend(cfg, s, es, [e]);
  }

  /** Each counter falls by exactly the number of jobs recovered from that worker. */
  lemma CountersAfterRecovery(before: Store, after: Store, now: int, w: string)
    requires Valid(before) && Valid(after) && w in before.workers && w in after.workers
    requires after.jobs == RecoveredRows(before.jobs, ExpiredSet(before.jobs, now), now)
    ensures after.workers[w].activeJobs == before.workers[w].activeJobs - |ExpiredOn(before.jobs, w, now)|
  {
    hide Valid;
    CounterAt(before, w);
    CounterAt(after, w);
    RecoveredRunning(before.jobs, w, now);
  }

  lemma RecoveredRunning(jobs: map<string, JobRecord>, w: string, now: int)
    ensures RunningCount(RecoveredRows(jobs, ExpiredSet(jobs, now), now), w) == RunningCount(jobs, w) - |ExpiredOn(jobs, w, now)|
  {
    var gone, after := ExpiredOn(jobs, w, now), RecoveredRows(jobs, ExpiredSet(jobs, now), now);
    forall j ensures j in RunningOn(after, w) <==> j in RunningOn(jobs, w) - gone {
    }
    assert RunningOn(after, w) == RunningOn(jobs, w) - gone;
    assert gone <= RunningOn(jobs, w);
  }

  lemma RecoveredShow(jobs: map<string, JobRecord>, now: int)
    ensures forall j :: j in ExpiredSet(jobs, now) ==>
              j in jobs && ShowsFailure(RecoveredRows(jobs, ExpiredSet(jobs, now), now)[j], "worker lease expired", true, now)
  {
  }

  lemma NothingLeftExpired(jobs: map<string, JobRecord>, now: int)
    ensures forall j :: j in jobs ==> !Expired(RecoveredRows(jobs, ExpiredSet(jobs, now), now)[j], now)
  {
  }

  class InMemoryControlRepository {
    const cfg: Config
    var workers: map<string, WorkerRecord>
    var workerOrder: seq<string>
    var jobs: map<string, JobRecord>
    var jobOrder: seq<string>
    var idempotency: map<string, string>
    var sequence: nat
    ghost var issued: set<string>

    ghost function Abs(): Store
      reads this
    {
      Store(workers, jobs, issued)
    }

    ghost predicate Consistent()
      reads this
    {
      cfg.Valid() && Valid(Abs()) && Indexed(Abs(), workerOrder, jobOrder, idempotency, sequence)
    }

    constructor (workerTtl: int, lease: int)
      requires workerTtl >= 1 && lease >= 1
      ensures Consistent() && Abs() == EMPTY
      ensures cfg == Config(workerTtl, lease) && sequence == 0
    {
      cfg := Config(workerTtl, lease);
      workers, workerOrder := map[], [];
      jobs, jobOrder := map[], [];
      idempotency, sequence, issued := map[], 0, {};
      new;
      EmptyIsValid();
    }

    // ----------------------------------------------------------------- helpers

    method ActiveJobCount(w: string) returns (n: nat)
      requires Lists(jobOrder, jobs.Keys)
      ensures n == RunningCount(jobs, w)
    {
      n := 0;
      ghost var found: set<string> := {};
      for i := 0 to |jobOrder|
        invariant found == set j | j in Visited(jobOrder, i) && RunsOn(jobs[j], w)
        invariant n == |found|
      {
        VisitedNext(jobOrder, jobs.Keys, i);
        if RunsOn(jobs[jobOrder[i]], w) {
          n := n + 1;
          found := found + {jobOrder[i]};
        }
      }
      VisitedAll(jobOrder, jobs.Keys);
      assert found == RunningOn(jobs, w);
    }

    /** True exactly when another owning worker shares a requested GPU. */
    method GpuConflict(gpus: seq<string>, self: string) returns (conflict: bool)
      requires Lists(workerOrder, workers.Keys)
      ensures conflict <==> !NoOverlap(workers, self, set g | g in gpus)
    {
      var requested := set g | g in gpus;
      if requested == {} { return false; }
      for i := 0 to |workerOrder|
        invariant forall w :: w in Visited(workerOrder, i) ==> w in workers
        invariant forall w :: w in Visited(workerOrder, i) && w != self && Owns(workers[w]) ==> requested * Gpus(workers[w].spec) == {}
      {
        VisitedNext(workerOrder, workers.Keys, i);
        var r := workers[workerOrder[i]];
        if workerOrder[i] != self && Owns(r) && requested * Gpus(r.spec) != {} {
          assert !(Gpus(workers[workerOrder[i]].spec) !! requested);
          return true;
        }
      }
      VisitedAll(workerOrder, workers.Keys);
      forall w | w in workers && w != self && Owns(workers[w]) ensures Gpus(workers[w].spec) !! requested {
        assert w in Visited(workerOrder, |workerOrder|);
        forall g | g in Gpus(workers[w].spec) ensures g !in requested {
          assert g !in requested * Gpus(workers[w].spec);
        }
      }
      return false;
    }

    /** The part of the state only bookkeeping reads. */
    ghost predicate SameBooks(order: seq<string>, keys: map<string, string>, seqNo: nat)
      reads this
    {
      jobOrder == order && idempotency == keys && sequence == seqNo
    }

    // ----------------------------------------------------------------- workers

    method RegisterWorker(reg: WorkerRegistration, now: int) returns (r: Result<WorkerRecord>)
      requires Consistent() && reg.Valid()
      modifies this
      ensures Consistent()
      ensures r.Ok? <==> Enabled(cfg, old(Abs()), Register(reg, now))
      ensures r.Ok? ==> Abs() == Apply(cfg, old(Abs()), Register(reg, now)) && r.value == workers[reg.spec.workerId]
      ensures r.Err? ==> r.error == Conflict && Abs() == old(Abs())
      ensures SameBooks(old(jobOrder), old(idempotency), old(sequence))
      ensures r.Ok? ==> workerOrder == Touch(old(workerOrder), reg.spec.workerId)
    {
      hide Valid, Indexed;
      var w := reg.spec.workerId;
      if w in workers && workers[w].activeJobs > 0 {
        if reg.spec != workers[w].spec || reg.maxConcurrency < workers[w].activeJobs {
          return Err(Conflict);
        }
      }
      IndexedLists(Abs(), workerOrder, jobOrder, idempotency, sequence);
      var conflict := GpuConflict(reg.spec.gpuUuids, w);
      if conflict { return Err(Conflict); }
      IndexedAfterRegister(cfg, Abs(), Register(reg, now), workerOrder, jobOrder, idempotency, sequence);
      var registeredAt := if w in workers then workers[w].registeredAt else now;
      var active := ActiveJobCount(w);
      var record := WorkerRecord(reg.spec, reg.maxConcurrency, Online, active, registeredAt, now, reg.metadata);
      workers := workers[w := record];
      workerOrder := Touch(workerOrder, w);
      return Ok(record);
    }

    method GetWorker(w: string) returns (r: Result<WorkerRecord>)
      ensures r == if w in workers then Ok(workers[w]) else Err(NotFound)
    {
      if w in workers { return Ok(workers[w]); }
      return Err(NotFound);
    }

    method SetWorkerState(w: string, state: WorkerState, now: int) returns (r: Result<WorkerRecord>)
      requires Consistent()
      modifies this
      ensures Consistent()
      ensures r.Ok? <==> Enabled(cfg, old(Abs()), SetState(w, state, now))
      ensures r.Ok? ==> Abs() == Apply(cfg, old(Abs()), SetState(w, state, now)) && r.value == workers[w]
      ensures r.Err? ==> Abs() == old(Abs()) && r.error == if w in workers then Conflict else NotFound
      ensures SameBooks(old(jobOrder), old(idempotency), old(sequence)) && workerOrder == old(workerOrder)
    {
      hide Valid, Indexed;
      if w !in workers { return Err(NotFound); }
      if !state.Offline? {
        IndexedLists(Abs(), workerOrder, jobOrder, idempotency, sequence);
        var conflict := GpuConflict(workers[w].spec.gpuUuids, w);
        if conflict { return Err(Conflict); }
      }
      IndexedAfter(cfg, Abs(), SetState(w, state, now), workerOrder, jobOrder, idempotency, sequence);
      workers := workers[w := workers[w].(state := state, lastSeenAt := now)];
      return Ok(workers[w]);
    }

    method HeartbeatWorker(w: string, beat: WorkerHeartbeat, now: int) returns (r: Result<WorkerRecord>)
      requires Consistent()
      modifies this
      ensures Consistent()
      ensures r.Ok? <==> Enabled(cfg, old(Abs()), Heartbeat(w, beat, now))
      ensures r.Ok? ==> Abs() == Apply(cfg, old(Abs()), Heartbeat(w, beat, now)) && r.value == workers[w]
      ensures r.Err? ==> Abs() == old(Abs())
      ensures r.Ok? && beat.Leased() ==>
                beat.activeJobId.value in jobs
                && LeaseUntil(jobs[beat.activeJobId.value], w, beat.leaseToken.value, now + cfg.lease)
      ensures r.Ok? ==> r.value.lastSeenAt == now && r.value.activeJobs == RunningCount(jobs, w)
      ensures r.Err? ==> (r.error == NotFound <==>
                w !in workers || (StaysReleased(workers[w], beat) && beat.LeaseComplete() && beat.activeJobId.value !in jobs))
      ensures SameBooks(old(jobOrder), old(idempotency), old(sequence)) && workerOrder == old(workerOrder)
    {
      hide Valid, Indexed;
      if w !in workers { return Err(NotFound); }
      var current := workers[w];
      if current.state.Offline? && (beat.state == Some(Online) || beat.state == Some(Draining)) {
        return Err(Conflict);
      }
      if beat.activeJobId.Some? || beat.leaseToken.Some? {
        if !beat.LeaseComplete() { return Err(Conflict); }
        var j := beat.activeJobId.value;
        if j !in jobs { return Err(NotFound); }
        if !LeaseHeld(jobs[j], w, beat.leaseToken.value, now) { return Err(Conflict); }
      }
      ghost var s, e := Abs(), Heartbeat(w, beat, now);
      IndexedLists(s, workerOrder, jobOrder, idempotency, sequence);
      IndexedAfter(cfg, s, e, workerOrder, jobOrder, idempotency, sequence);
      if beat.activeJobId.Some? || beat.leaseToken.Some? {
        var j := beat.activeJobId.value;
        jobs := jobs[j := Renewed(jobs[j], now, cfg.lease)];
      }
      assert Lists(jobOrder, jobs.Keys);
      var active := ActiveJobCount(w);
      workers := workers[w := Beaten(current, beat, active, now)];
      return Ok(workers[w]);
    }

    /** The workers past their time to live that are not offline yet. */
    ghost function Stale(now: int): set<string>
      reads this
    {
      set w | w in workers && !workers[w].state.Offline? && workers[w].lastSeenAt < now - cfg.workerTtl
    }

    /** Marks every stale worker offline and returns their rows in dictionary order. */
    method ExpireStaleWorkers(now: int) returns (expired: seq<WorkerRecord>)
      requires Consistent()
      modifies this
      ensures Consistent()
      ensures Enabled(cfg, old(Abs()), MarkOffline(old(Stale(now))))
      ensures Abs() == Apply(cfg, old(Abs()), MarkOffline(old(Stale(now))))
      ensures RowsOf(expired, Pick(workerOrder, old(Stale(now))), workers)
      ensures workers.Keys == old(workers).Keys
      ensures forall w :: w in workers ==>
        var row := old(workers)[w];
        workers[w] == if !row.state.Offline? && now - row.lastSeenAt > cfg.workerTtl then row.(state := Offline) else row
      ensures SameBooks(old(jobOrder), old(idempotency), old(sequence)) && workerOrder == old(workerOrder)
    {
      hide Valid, Indexed;
      IndexedLists(Abs(), workerOrder, jobOrder, idempotency, sequence);
      IndexedAfter(cfg, Abs(), MarkOffline(Stale(now)), workerOrder, jobOrder, idempotency, sequence);
      expired := MarkStale(now - cfg.workerTtl, Stale(now));
    }

    /** The expiry loop over the worker dictionary. */
    method MarkStale(cutoff: int, ghost stale: set<string>) returns (expired: seq<WorkerRecord>)
      requires Lists(workerOrder, workers.Keys)
      requires stale == set w | w in workers && !workers[w].state.Offline? && workers[w].lastSeenAt < cutoff
      modifies this`workers
      ensures workers == AllOffline(old(workers), stale)
      ensures RowsOf(expired, Pick(workerOrder, stale), workers)
    {
      hide AllOffline, Visited, Pick, RowsOf, Expiring;
      ghost var before := workers;
      expired := [];
      ExpiringStart(before, workerOrder, stale);
      for i := 0 to |workerOrder|
        invariant Expiring(before, workerOrder, stale, i, workers, expired)
      {
        ExpiringStep(before, workerOrder, stale, i, workers, expired);
        var worker := workers[workerOrder[i]];
        if !worker.state.Offline? && !(worker.lastSeenAt >= cutoff) {
          var updated := worker.(state := Offline);
          workers := workers[workerOrder[i] := updated];
          expired := expired + [updated];
        }
      }
      ExpiringEnd(before, workerOrder, stale, workers, expired);
    }

    // -------------------------------------------------------------------- jobs

    method SubmitJob(sub: JobSubmission, now: int, id: string) returns (r: Result<JobRecord>)
      requires Consistent() && sub.Valid() && id !in jobs
      modifies this
      ensures Consistent()
      ensures match SubmitResult(old(Abs()), sub)
        case Fresh => Enabled(cfg, old(Abs()), Submit(id, sub, old(sequence) + 1, now))
                      && Abs() == Apply(cfg, old(Abs()), Submit(id, sub, old(sequence) + 1, now))
                      && r == Ok(jobs[id]) && sequence == old(sequence) + 1
        case Replayed(j) => Abs() == old(Abs()) && j in jobs && r == Ok(jobs[j])
        case Clash => Abs() == old(Abs()) && r == Err(Conflict)
      ensures workerOrder == old(workerOrder)
      ensures jobOrder == if SubmitResult(old(Abs()), sub).Fresh? then Touch(old(jobOrder), id) else old(jobOrder)
    {
      hide Valid, Indexed;
      if sub.idempotencyKey.Some? {
        var key := sub.idempotencyKey.value;
        if key in idempotency {
          KeyIndexed(Abs(), workerOrder, jobOrder, idempotency, sequence, key);
          var existing := jobs[idempotency[key]];
          KeyFindsJob(Abs(), sub, idempotency[key]);
          if !SubmissionMatches(existing, sub) { return Err(Conflict); }
          return Ok(existing);
        }
      }
      SubmitEnabled(cfg, Abs(), id, sub, now, workerOrder, jobOrder, idempotency, sequence);
      IndexedAfterSubmit(cfg, Abs(), Submit(id, sub, sequence + 1, now), workerOrder, jobOrder, idempotency, sequence);
      sequence := sequence + 1;
      var record := NewJob(id, sub, sequence, now);
      jobs := jobs[id := record];
      jobOrder := Touch(jobOrder, id);
      if sub.idempotencyKey.Some? {
        idempotency := idempotency[sub.idempotencyKey.value := id];
      }
      return Ok(record);
    }

    method GetJob(j: string) returns (r: Result<JobRecord>)
      ensures r == if j in jobs then Ok(jobs[j]) else Err(NotFound)
    {
      if j in jobs { return Ok(jobs[j]); }
      return Err(NotFound);
    }

    /** The eligible jobs in dictionary order, then the first by claim order. */
    method SelectJob(spec: WorkerSpec, now: int) returns (selected: Option<string>)
      requires Lists(jobOrder, jobs.Keys)
      ensures selected.None? <==> forall j :: j in jobs ==> !Eligible(jobs[j], spec, now)
      ensures selected.Some? ==> selected.value in jobs && Eligible(jobs[selected.value], spec, now)
      ensures selected.Some? ==> forall j :: j in jobs && Eligible(jobs[j], spec, now) ==> ClaimedBefore(jobs[selected.value], jobs[j])
    {
      selected := None;
      for i := 0 to |jobOrder|
        invariant selected.None? <==> forall j :: j in Visited(jobOrder, i) ==> !Eligible(jobs[j], spec, now)
        invariant selected.Some? ==> selected.value in jobs && Eligible(jobs[selected.value], spec, now)
        invariant selected.Some? ==> forall j :: j in Visited(jobOrder, i) && Eligible(jobs[j], spec, now) ==> ClaimedBefore(jobs[selected.value], jobs[j])
      {
        VisitedNext(jobOrder, jobs.Keys, i);
        var j := jobOrder[i];
        if Eligible(jobs[j], spec, now) && (selected.None? || !ClaimedBefore(jobs[selected.value], jobs[j])) {
          selected := Some(j);
        }
      }
      VisitedAll(jobOrder, jobs.Keys);
    }

    /** A gate that stops a claim before jobs are looked at. */
    ghost predicate GateClosed(w: string, now: int)
      requires w in workers
      reads this
    {
      now - workers[w].lastSeenAt > cfg.workerTtl || !workers[w].state.Online? || workers[w].activeJobs >= workers[w].maxConcurrency
    }

    method ClaimNextJob(w: string, now: int, token: string) returns (r: Result<Option<JobRecord>>)
      requires Consistent() && token !in issued && token != ""
      modifies this
      ensures Consistent()
      ensures r.Err? <==> w !in old(workers)
      ensures r.Err? ==> r.error == NotFound && Abs() == old(Abs())
      ensures r.Ok? && r.value.None? <==> (w in old(workers) &&
        (old(GateClosed(w, now)) || forall j :: j in old(jobs) ==> !Eligible(old(jobs)[j], old(workers)[w].spec, now)))
      ensures r.Ok? && r.value.None? && now - old(workers)[w].lastSeenAt <= cfg.workerTtl ==> Abs() == old(Abs())
      ensures r.Ok? && r.value.None? && now - old(workers)[w].lastSeenAt > cfg.workerTtl ==>
        Enabled(cfg, old(Abs()), MarkOffline({w})) && Abs() == Apply(cfg, old(Abs()), MarkOffline({w}))
      ensures r.Ok? && r.value.Some? ==> IsClaim(old(Abs()), r.value.value, w, now, token)
      ensures SameBooks(old(jobOrder), old(idempotency), old(sequence)) && workerOrder == old(workerOrder)
    {
      hide Valid, Indexed, Enabled, Apply;
      if w !in workers { return Err(NotFound); }
      var worker := workers[w];
      if now - worker.lastSeenAt > cfg.workerTtl {
        PutOffline(w);
        return Ok(None);
      }
      if !worker.state.Online? { return Ok(None); }
      if worker.activeJobs >= worker.maxConcurrency { return Ok(None); }
      var claimed := ClaimEligible(w, now, token);
      return Ok(claimed);
    }

    /** The body of a claim once every gate is open. */
    method ClaimEligible(w: string, now: int, token: string) returns (claimed: Option<JobRecord>)
      requires Consistent() && token !in issued && token != "" && w in workers && !GateClosed(w, now)
      modifies this
      ensures Consistent()
      ensures claimed.None? ==> Abs() == old(Abs())
      ensures claimed.None? <==> forall j :: j in old(jobs) ==> !Eligible(old(jobs)[j], old(workers)[w].spec, now)
      ensures claimed.Some? ==> IsClaim(old(Abs()), claimed.value, w, now, token)
      ensures SameBooks(old(jobOrder), old(idempotency), old(sequence)) && workerOrder == old(workerOrder)
    {
      hide Valid, Indexed, Enabled, Apply;
      IndexedLists(Abs(), workerOrder, jobOrder, idempotency, sequence);
      var selected := SelectJob(workers[w].spec, now);
      if selected.None? { return None; }
      var j := selected.value;
      ClaimEnabled(cfg, Abs(), w, j, token, now);
      UniqueFirst(Abs(), j, workers[w].spec, now);
      var row := TakeJob(w, j, token, now);
      return Some(row);
    }

    /** The current state is `before` after `w` claimed the job now in `row`, which was
        the first of the jobs eligible for `w`: none has a higher priority, and none of the
        same priority is older.  It answers to `w` until the lease from now is over. */
    ghost predicate IsClaim(before: Store, row: JobRecord, w: string, now: int, token: string)
      reads this
    {
      var j := row.jobId;
      && Enabled(cfg, before, Claim(w, j, token, now))
      && Abs() == Apply(cfg, before, Claim(w, j, token, now))
      && j in jobs && row == jobs[j]
      && LeaseUntil(row, w, token, now + cfg.lease)
      && (forall i :: i in before.jobs && i != j && Eligible(before.jobs[i], before.workers[w].spec, now) ==>
            || before.jobs[j].priority > before.jobs[i].priority
            || (before.jobs[j].priority == before.jobs[i].priority && before.jobs[j].sequence < before.jobs[i].sequence))
    }

    /** A claim by a stale worker only marks it offline. */
    method PutOffline(w: string)
      requires Consistent() && w in workers
      modifies this
      ensures Consistent() && Enabled(cfg, old(Abs()), MarkOffline({w}))
      ensures Abs() == Apply(cfg, old(Abs()), MarkOffline({w}))
      ensures SameBooks(old(jobOrder), old(idempotency), old(sequence)) && workerOrder == old(workerOrder)
    {
      hide Valid, Indexed;
      IndexedAfter(cfg, Abs(), MarkOffline({w}), workerOrder, jobOrder, idempotency, sequence);
      assert workers[w := workers[w].(state := Offline)] == AllOffline(workers, {w});
      workers := workers[w := workers[w].(state := Offline)];
    }

    /** The two writes of a successful claim. */
    method TakeJob(w: string, j: string, token: string, now: int) returns (claimed: JobRecord)
      requires Consistent() && Enabled(cfg, Abs(), Claim(w, j, token, now))
      modifies this
      ensures Consistent() && Enabled(cfg, old(Abs()), Claim(w, j, token, now))
      ensures Abs() == Apply(cfg, old(Abs()), Claim(w, j, token, now))
      ensures claimed.jobId == j && j in jobs && claimed == jobs[j]
      ensures LeaseUntil(claimed, w, token, now + cfg.lease)
      ensures SameBooks(old(jobOrder), old(idempotency), old(sequence)) && workerOrder == old(workerOrder)
    {
      hide Valid, Indexed;
      JobNamed(Abs(), j);
      IndexedAfter(cfg, Abs(), Claim(w, j, token, now), workerOrder, jobOrder, idempotency, sequence);
      claimed := Claimed(jobs[j], w, token, now, cfg.lease);
      jobs := jobs[j := claimed];
      workers := workers[w := workers[w].(activeJobs := workers[w].activeJobs + 1)];
      issued := issued + {token};
    }

    /** Replace a job row and give its capacity back, keeping the dictionary order. */
    method StoreEnded(j: string, row: JobRecord, release: Option<string>)
      requires j in jobs
      modifies this`jobs, this`workers
      ensures jobs == old(jobs)[j := row] && workers == Release(old(workers), release)
    {
      jobs := jobs[j := row];
      if release.Some? && release.value in workers {
        var worker := workers[release.value];
        workers := workers[release.value := worker.(activeJobs := if worker.activeJobs - 1 < 0 then 0 else worker.activeJobs - 1)];
      }
    }

    method CompleteJob(j: string, result: Opaque, w: string, token: string, now: int) returns (r: Result<JobRecord>)
      requires Consistent()
      modifies this
      ensures Consistent()
      ensures r.Ok? <==> Enabled(cfg, old(Abs()), Complete(j, result, w, token, now))
      ensures r.Ok? ==> Abs() == Apply(cfg, old(Abs()), Complete(j, result, w, token, now)) && r.value == jobs[j]
      ensures r.Ok? ==>
        && r.value.status.Succeeded? && r.value.result == Some(result) && r.value.error.None?
        && r.value.finishedAt == Some(now) && r.value.assignedWorker.None? && r.value.leaseToken.None?
      ensures r.Err? ==> Abs() == old(Abs()) && r.error == if j in jobs then Conflict else NotFound
      ensures SameBooks(old(jobOrder), old(idempotency), old(sequence)) && workerOrder == old(workerOrder)
    {
      hide Valid, Indexed;
      if j !in jobs { return Err(NotFound); }
      if !LeaseHeld(jobs[j], w, token, now) { return Err(Conflict); }
      IndexedAfter(cfg, Abs(), Complete(j, result, w, token, now), workerOrder, jobOrder, idempotency, sequence);
      StoreEnded(j, Completed(jobs[j], result, now), Some(w));
      return Ok(jobs[j]);
    }

    method FailJob(j: string, message: Opaque, retryable: bool, w: string, token: string, now: int) returns (r: Result<JobRecord>)
      requires Consistent()
      modifies this
      ensures Consistent()
      ensures r.Ok? <==> Enabled(cfg, old(Abs()), Fail(j, message, retryable, w, token, now))
      ensures r.Ok? ==> Abs() == Apply(cfg, old(Abs()), Fail(j, message, retryable, w, token, now)) && r.value == jobs[j]
      ensures r.Ok? ==> ShowsFailure(r.value, message, retryable, now)
      ensures r.Err? ==> Abs() == old(Abs()) && r.error == if j in jobs then Conflict else NotFound
      ensures SameBooks(old(jobOrder), old(idempotency), old(sequence)) && workerOrder == old(workerOrder)
    {
      hide Valid, Indexed;
      if j !in jobs { return Err(NotFound); }
      if !LeaseHeld(jobs[j], w, token, now) { return Err(Conflict); }
      IndexedAfter(cfg, Abs(), Fail(j, message, retryable, w, token, now), workerOrder, jobOrder, idempotency, sequence);
      var retry := retryable && jobs[j].attempts < jobs[j].maxAttempts;
      StoreEnded(j, Retried(jobs[j], retry, message, now), Some(w));
      return Ok(jobs[j]);
    }

    method CancelJob(j: string, now: int) returns (r: Result<JobRecord>)
      requires Consistent()
      modifies this
      ensures Consistent()
      ensures j in old(jobs) ==> j in jobs && r == Ok(jobs[j])
      ensures j !in old(jobs) ==> r == Err(NotFound)
      ensures j in old(jobs) ==> if old(jobs)[j].status.Terminal() then jobs == old(jobs)
                                 else r.value.status.Cancelled? && r.value.finishedAt == Some(now)
      ensures if Enabled(cfg, old(Abs()), Cancel(j, now)) then Abs() == Apply(cfg, old(Abs()), Cancel(j, now)) else Abs() == old(Abs())
      ensures SameBooks(old(jobOrder), old(idempotency), old(sequence)) && workerOrder == old(workerOrder)
    {
      hide Valid, Indexed;
      if j !in jobs { return Err(NotFound); }
      if jobs[j].status.Terminal() { return Ok(jobs[j]); }
      IndexedAfter(cfg, Abs(), Cancel(j, now), workerOrder, jobOrder, idempotency, sequence);
      StoreEnded(j, Dropped(jobs[j], now), if jobs[j].status.Running? then jobs[j].assignedWorker else None);
      return Ok(jobs[j]);
    }

    /** Every expired attempt ends, in dictionary order, and nothing else changes: no
        running job stays past its deadline, each is requeued exactly when it has attempts
        left, and each counter falls by the number of its recovered jobs. */
    method RecoverExpiredJobs(now: int) returns (recovered: seq<JobRecord>, ghost es: seq<Event>)
      requires Consistent()
      modifies this
      ensures Consistent()
      ensures Accepts(cfg, old(Abs()), es) && Abs() == Replay(cfg, old(Abs()), es)
      ensures jobs == RecoveredRows(old(jobs), old(ExpiredSet(jobs, now)), now)
      ensures forall j :: j in jobs ==> !Expired(jobs[j], now)
      ensures forall j :: j in old(ExpiredSet(jobs, now)) ==> j in jobs && ShowsFailure(jobs[j], "worker lease expired", true, now)
      ensures RowsOf(recovered, Pick(jobOrder, old(ExpiredSet(jobs, now))), jobs)
      ensures workers.Keys == old(workers).Keys
      ensures forall w :: w in workers ==>
        workers[w] == old(workers)[w].(activeJobs := old(workers)[w].activeJobs - |ExpiredOn(old(jobs), w, now)|)
      ensures SameBooks(old(jobOrder), old(idempotency), old(sequence)) && workerOrder == old(workerOrder)
    {
      hide Valid, Indexed, Enabled, Apply, Accepts, Replay, ShowsFailure;
      ghost var before := Abs();
      recovered, es := [], [];
      IndexedLists(before, workerOrder, jobOrder, idempotency, sequence);
      RecoveringStart(cfg, before, jobOrder, now);
      for i := 0 to |jobOrder|
        invariant Consistent()
        invariant SameBooks(old(jobOrder), old(idempotency), old(sequence)) && workerOrder == old(workerOrder)
        invariant Recovering(cfg, before, jobOrder, now, i, Abs(), recovered, es)
      {
        RecoveringStep(cfg, before, jobOrder, now, i, Abs(), recovered, es);
        var j := jobOrder[i];
        if Expired(jobs[j], now) {
          es := es + [Recover(j, now)];
          var row := RecoverOne(j, now);
          recovered := recovered + [row];
        }
      }
      RecoveringEnd(cfg, before, jobOrder, now, Abs(), recovered, es);
    }

    /** One iteration of the recovery loop on an expired job. */
    method RecoverOne(j: string, now: int) returns (row: JobRecord)
      requires Consistent() && Enabled(cfg, Abs(), Recover(j, now))
      modifies this
      ensures Consistent() && Enabled(cfg, old(Abs()), Recover(j, now))
      ensures Abs() == Apply(cfg, old(Abs()), Recover(j, now))
      ensures j in old(jobs) && row == Recovered(old(jobs)[j], now)
      ensures SameBooks(old(jobOrder), old(idempotency), old(sequence)) && workerOrder == old(workerOrder)
    {
      hide Valid, Indexed;
      IndexedAfter(cfg, Abs(), Recover(j, now), workerOrder, jobOrder, idempotency, sequence);
      var job := jobs[j];
      row := Retried(job, job.attempts < job.maxAttempts, LEASE_EXPIRED, now);
      StoreEnded(j, row, job.assignedWorker);
    }
  }

  lemma RecoveringStart(cfg: Config, before: Store, order: seq<string>, now: int)
    requires Valid(before) && Lists(order, before.jobs.Keys)
    ensures Recovering(cfg, before, order, now, 0, before, [], [])
  {
    hide Valid;
    assert ExpiredSet(before.jobs, now) * Visited(order, 0) == {};
    assert RecoveredRows(before.jobs, {}, now) == before.jobs;
    assert order[..0] == [];
  }

  lemma RecoveringEnd(cfg: Config, before: Store, order: seq<string>, now: int, s: Store, recovered: seq<JobRecord>, es: seq<Event>)
    requires Recovering(cfg, before, order, now, |order|, s, recovered, es) && Valid(s)
    ensures s.jobs == RecoveredRows(before.jobs, ExpiredSet(before.jobs, now), now)
    ensures forall j :: j in s.jobs ==> !Expired(s.jobs[j], now)
    ensures forall j :: j in ExpiredSet(before.jobs, now) ==> j in s.jobs && ShowsFailure(s.jobs[j], "worker lease expired", true, now)
    ensures RowsOf(recovered, Pick(order, ExpiredSet(before.jobs, now)), s.jobs)
    ensures s.workers.Keys == before.workers.Keys
    ensures forall w :: w in s.workers ==>
      s.workers[w] == before.workers[w].(activeJobs := before.workers[w].activeJobs - |ExpiredOn(before.jobs, w, now)|)
  {
    hide Valid;
    VisitedAll(order, before.jobs.Keys);
    assert ExpiredSet(before.jobs, now) * Visited(order, |order|) == ExpiredSet(before.jobs, now);
    assert order[..|order|] == order;
    NothingLeftExpired(before.jobs, now);
    RecoveredShow(before.jobs, now);
    forall w | w in s.workers ensures s.workers[w].activeJobs == before.workers[w].activeJobs - |ExpiredOn(before.jobs, w, now)| {
      CountersAfterRecovery(before, s, now, w);
    }
  }
}
