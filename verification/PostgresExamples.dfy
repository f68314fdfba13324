/** A run of the interleaved system, from the empty database, that ends in a deadlock of two
    bulk expiries, and the race in which a claim takes a worker offline that was just heard from. */
module PostgresExamples {
  import opened Contracts
  import opened Ledger
  import opened LedgerInvariant
  import opened Postgres
  import opened PostgresLocks

  lemma {:induction false} RunsConcat(cfg: Config, key: string -> int, s: Sys, a: seq<Step>, b: seq<Step>)
    requires Runs(cfg, key, s, a) && Runs(cfg, key, After(cfg, key, s, a), b)
    ensures Runs(cfg, key, s, a + b) && After(cfg, key, s, a + b) == After(cfg, key, After(cfg, key, s, a), b)
    decreases |a|
  {
    hide CanStep, DoStep;
    if a == [] {
      assert a + b == b;
    } else {
      assert (a + b)[0] == a[0] && (a + b)[1..] == a[1..] + b;
      RunsConcat(cfg, key, DoStep(cfg, key, s, a[0]), a[1..], b);
    }
  }

  /** A run leads from `s` to `t`. */
  ghost predicate Leads(cfg: Config, key: string -> int, s: Sys, steps: seq<Step>, t: Sys) {
    Runs(cfg, key, s, steps) && After(cfg, key, s, steps) == t
  }

  lemma Chain(cfg: Config, key: string -> int, s: Sys, a: seq<Step>, m: Sys, b: seq<Step>, t: Sys)
    requires Leads(cfg, key, s, a, m) && Leads(cfg, key, m, b, t)
    ensures Leads(cfg, key, s, a + b, t)
  {
    RunsConcat(cfg, key, s, a, b);
  }

  lemma OneStep(cfg: Config, key: string -> int, s: Sys, step: Step)
    requires CanStep(cfg, key, s, step)
    ensures Leads(cfg, key, s, [step], DoStep(cfg, key, s, step))
  {
    hide CanStep, DoStep;
    assert [step][1..] == [];
    var t := DoStep(cfg, key, s, step);
    assert Runs(cfg, key, t, []) && After(cfg, key, t, []) == t;
  }

  /** Only transaction 0 is open. */
  function Alone(db: Store, tx: Tx): Sys {
    Sys(db, map[0 := tx])
  }

  lemma AloneRuns(cfg: Config, key: string -> int, db: Store, tx: Tx, after: Tx)
    requires Exec(cfg, key, db, {}, tx, after)
    ensures Leads(cfg, key, Alone(db, tx), [Step.Statement(0, after)], Alone(db, after))
  {
    var s := Alone(db, tx);
    hide Exec;
    assert HeldByOthers(s, 0) == {};
    OneStep(cfg, key, s, Step.Statement(0, after));
    assert map[0 := tx][0 := after] == map[0 := after];
  }

  function CpuWorker(w: string): WorkerRegistration {
    WorkerRegistration(WorkerSpec(w, "cpu", ResourceShape(0, 0, 0), [], [], {}, map[]), 1, map[])
  }

  lemma NoGpus(key: string -> int, w: string, db: Store)
    ensures Gpus(CpuWorker(w).spec) == {}
    ensures w !in db.workers ==> SortedKeys(key, Gpus(CpuWorker(w).spec) + KnownGpus(Topology(db.workers, w)), [])
    ensures NoOverlap(db.workers, w, Gpus(CpuWorker(w).spec))
  {
  }

  function Locked(key: string -> int, w: string): Tx {
    Opened(RegisterReq(CpuWorker(w), 0)).(phase := Locking, locks := {Identity(key(w))})
  }

  lemma TakesLocks(cfg: Config, key: string -> int, db: Store, w: string) returns (steps: seq<Step>)
    requires w !in db.workers
    ensures Leads(cfg, key, Alone(db, Opened(RegisterReq(CpuWorker(w), 0))), steps, Alone(db, Locked(key, w)))
  {
    var t0 := Opened(RegisterReq(CpuWorker(w), 0));
    var t1 := t0.(phase := Identified, locks := t0.locks + {Identity(key(w))});
    var t2 := t1.(phase := Locking, topology := None, pending := []);
    NoGpus(key, w, db);
    hide NoOverlap, SortedKeys, Gpus, Leads;
    AloneRuns(cfg, key, db, t0, t1);
    AloneRuns(cfg, key, db, t1, t2);
    assert t2 == Locked(key, w);
    Chain(cfg, key, Alone(db, t0), [Step.Statement(0, t1)], Alone(db, t1), [Step.Statement(0, t2)], Alone(db, t2));
    steps := [Step.Statement(0, t1)] + [Step.Statement(0, t2)];
  }

  function Row(db: Store, w: string): WorkerRecord {
    Enrolled(db, CpuWorker(w), 0)
  }

  lemma WritesRow(cfg: Config, key: string -> int, db: Store, w: string) returns (steps: seq<Step>, tx: Tx)
    requires w !in db.workers
    ensures Leads(cfg, key, Alone(db, Locked(key, w)), steps, Alone(db, tx))
    ensures tx.phase.Ready? && tx.workerWrites == map[w := Row(db, w)] && tx.jobWrites == map[] && tx.token == ""
  {
    var t2 := Locked(key, w);
    var t3 := t2.(phase := Fetched);
    var t4 := t3.(phase := Checked);
    var t5 := t4.(phase := Counted, count := RunningCount(db.jobs, w));
    tx := t5.(phase := Ready, locks := t5.locks + {WorkerRow(w)}, workerWrites := map[w := Row(db, w)]);
    NoGpus(key, w, db);
    hide NoOverlap, SortedKeys, Gpus, Leads, RunningCount;
    AloneRuns(cfg, key, db, t2, t3);
    AloneRuns(cfg, key, db, t3, t4);
    AloneRuns(cfg, key, db, t4, t5);
    AloneRuns(cfg, key, db, t5, tx);
    var a, b, c, d := [Step.Statement(0, t3)], [Step.Statement(0, t4)], [Step.Statement(0, t5)], [Step.Statement(0, tx)];
    Chain(cfg, key, Alone(db, t2), a, Alone(db, t3), b, Alone(db, t4));
    Chain(cfg, key, Alone(db, t2), a + b, Alone(db, t4), c, Alone(db, t5));
    Chain(cfg, key, Alone(db, t2), a + b + c, Alone(db, t5), d, Alone(db, tx));
    steps := a + b + c + d;
  }

  function With(db: Store, w: string): Store {
    db.(workers := db.workers[w := Row(db, w)])
  }

  lemma CommitsRow(cfg: Config, key: string -> int, db: Store, w: string, tx: Tx)
    requires tx.phase.Ready? && tx.workerWrites == map[w := Row(db, w)] && tx.jobWrites == map[] && tx.token == ""
    ensures Leads(cfg, key, Alone(db, tx), [Step.Commit(0)], Sys(With(db, w), map[]))
  {
    hide RunningCount, Leads;
    OneStep(cfg, key, Alone(db, tx), Step.Commit(0));
    assert map[0 := tx] - {0} == map[];
    var nothing: set<string> := {};
    assert db.tokens + nothing == db.tokens;
    assert db.workers + map[w := Row(db, w)] == db.workers[w := Row(db, w)];
    assert db.jobs + map[] == db.jobs;
  }

  /** A worker without GPUs enrolls, with nobody else about. */
  lemma Enrolls(cfg: Config, key: string -> int, db: Store, w: string) returns (steps: seq<Step>)
    requires w != "" && w !in db.workers
    ensures Leads(cfg, key, Sys(db, map[]), steps, Sys(With(db, w), map[]))
  {
    var req := RegisterReq(CpuWorker(w), 0);
    assert WellFormed(req);
    OneStep(cfg, key, Sys(db, map[]), Step.Start(0, req));
    assert DoStep(cfg, key, Sys(db, map[]), Step.Start(0, req)) == Alone(db, Opened(req));
    hide Leads, WellFormed, With;
    var locking := TakesLocks(cfg, key, db, w);
    var writing, tx := WritesRow(cfg, key, db, w);
    CommitsRow(cfg, key, db, w, tx);
    var begin := [Step.Start(0, req)];
    Chain(cfg, key, Sys(db, map[]), begin, Alone(db, Opened(req)), locking, Alone(db, Locked(key, w)));
    Chain(cfg, key, Sys(db, map[]), begin + locking, Alone(db, Locked(key, w)), writing, Alone(db, tx));
    Chain(cfg, key, Sys(db, map[]), begin + locking + writing, Alone(db, tx), [Step.Commit(0)], Sys(With(db, w), map[]));
    steps := begin + locking + writing + [Step.Commit(0)];
  }

  lemma ExpiriesBegin(cfg: Config, key: string -> int, db: Store, now: int) returns (steps: seq<Step>, s: Sys)
    ensures Leads(cfg, key, Sys(db, map[]), steps, s)
    ensures s == Sys(db, map[0 := Opened(ExpireReq(now)), 1 := Opened(ExpireReq(now))])
  {
    var s0 := Sys(db, map[]);
    var s1 := Sys(db, map[0 := Opened(ExpireReq(now))]);
    s := Sys(db, map[0 := Opened(ExpireReq(now)), 1 := Opened(ExpireReq(now))]);
    var a, b := [Step.Start(0, ExpireReq(now))], [Step.Start(1, ExpireReq(now))];
    OneStep(cfg, key, s0, a[0]);
    OneStep(cfg, key, s1, b[0]);
    hide Leads;
    Chain(cfg, key, s0, a, s1, b, s);
    steps := a + b;
  }

  /** Two workers enroll, go stale, and two expiries wait for each other over their rows. */
  lemma ExpiriesDeadlockRun(cfg: Config, key: string -> int) returns (steps: seq<Step>)
    ensures Runs(cfg, key, INITIAL, steps)
    ensures WaitWalk(cfg, key, After(cfg, key, INITIAL, steps), [0, 1, 0], [WorkerRow("w"), WorkerRow("v")])
  {
    hide Leads, Runs, After, WaitWalk;
    var now := cfg.workerTtl + 1;
    var first := With(EMPTY, "v");
    var both := With(first, "w");
    assert "w" != "v" by { assert "w"[0] != "v"[0]; }
    var a := Enrolls(cfg, key, EMPTY, "v");
    var b := Enrolls(cfg, key, first, "w");
    var c, s := ExpiriesBegin(cfg, key, both, now);
    var d := ExpiriesCanDeadlock(cfg, key, s, 0, 1, "v", "w", now);
    Deadlocked(cfg, key, s, d);
    Chain(cfg, key, INITIAL, a, Sys(first, map[]), b, Sys(both, map[]));
    Chain(cfg, key, INITIAL, a + b, Sys(both, map[]), c, s);
    Chain(cfg, key, INITIAL, a + b + c, s, d, After(cfg, key, s, d));
    steps := a + b + c + d;
    Led(cfg, key, INITIAL, steps, After(cfg, key, s, d));
  }

  lemma Deadlocked(cfg: Config, key: string -> int, s: Sys, steps: seq<Step>)
    requires Runs(cfg, key, s, steps)
    ensures Leads(cfg, key, s, steps, After(cfg, key, s, steps))
  {
  }

  lemma Led(cfg: Config, key: string -> int, s: Sys, steps: seq<Step>, t: Sys)
    requires Leads(cfg, key, s, steps, t)
    ensures Runs(cfg, key, s, steps) && After(cfg, key, s, steps) == t
  {
  }

  // ------------------------------------------------ a claim and a heartbeat race

  /** A claim is open as transaction 0 and a heartbeat as transaction 1. */
  function Racing(db: Store, claim: Tx, beat: Tx): Sys {
    Sys(db, map[0 := claim, 1 := beat])
  }

  const PLAIN_BEAT := WorkerHeartbeat(None, None, None, map[])

  lemma BeatRuns(cfg: Config, key: string -> int, db: Store, claim: Tx, beat: Tx, after: Tx)
    requires claim.locks == {} && Exec(cfg, key, db, {}, beat, after)
    ensures Leads(cfg, key, Racing(db, claim, beat), [Step.Statement(1, after)], Racing(db, claim, after))
  {
    var s := Racing(db, claim, beat);
    hide Exec;
    assert HeldByOthers(s, 1) == {};
    OneStep(cfg, key, s, Step.Statement(1, after));
    assert s.txs[1 := after] == map[0 := claim, 1 := after];
  }

  /** The claim reads the row of a stale worker. */
  lemma ClaimReads(cfg: Config, key: string -> int, db: Store, w: string, now: int) returns (steps: seq<Step>, seen: Tx)
    requires w in db.workers
    ensures seen == Opened(ClaimReq(w, now)).(phase := Seen, worker := Some(db.workers[w]))
    ensures Leads(cfg, key, Sys(db, map[]), steps, Alone(db, seen))
  {
    hide Leads;
    var begun := Opened(ClaimReq(w, now));
    seen := begun.(phase := Seen, worker := Some(db.workers[w]));
    OneStep(cfg, key, Sys(db, map[]), Step.Start(0, ClaimReq(w, now)));
    assert (map[])[0 := begun] == map[0 := begun];
    AloneRuns(cfg, key, db, begun, seen);
    var a, b := [Step.Start(0, ClaimReq(w, now))], [Step.Statement(0, seen)];
    Chain(cfg, key, Sys(db, map[]), a, Alone(db, begun), b, Alone(db, seen));
    steps := a + b;
  }

  /** Meanwhile the worker's heartbeat goes through. */
  lemma BeatCommits(cfg: Config, key: string -> int, db: Store, claim: Tx, w: string, now: int) returns (steps: seq<Step>, db': Store)
    requires w in db.workers && claim.locks == {}
    ensures Leads(cfg, key, Alone(db, claim), steps, Alone(db', claim))
    ensures w in db'.workers && db'.workers[w].lastSeenAt == now && db'.workers[w].state == db.workers[w].state
  {
    hide Leads;
    var req := HeartbeatReq(w, PLAIN_BEAT, now);
    var b0 := Opened(req);
    var b1 := b0.(phase := WorkerLocked, locks := {WorkerRow(w)}, worker := Some(db.workers[w]));
    var b2 := b1.(phase := Counted, count := RunningCount(db.jobs + b1.jobWrites, w));
    var row := db.workers[w].(state := db.workers[w].state, lastSeenAt := now, activeJobs := b2.count,
                              metadata := MergeMetadata(db.workers[w].metadata, PLAIN_BEAT.metadata));
    var b3 := b2.(phase := Ready, workerWrites := map[w := row]);
    var s := Alone(db, claim);
    OneStep(cfg, key, s, Step.Start(1, req));
    assert s.txs[1 := b0] == map[0 := claim, 1 := b0];
    BeatRuns(cfg, key, db, claim, b0, b1);
    BeatRuns(cfg, key, db, claim, b1, b2);
    BeatRuns(cfg, key, db, claim, b2, b3);
    db' := Committed(db, b3);
    var t := Racing(db, claim, b3);
    OneStep(cfg, key, t, Step.Commit(1));
    assert t.txs - {1} == map[0 := claim];
    var a, b, c, d, e := [Step.Start(1, req)], [Step.Statement(1, b1)], [Step.Statement(1, b2)], [Step.Statement(1, b3)], [Step.Commit(1)];
    Chain(cfg, key, s, a, Racing(db, claim, b0), b, Racing(db, claim, b1));
    Chain(cfg, key, s, a + b, Racing(db, claim, b1), c, Racing(db, claim, b2));
    Chain(cfg, key, s, a + b + c, Racing(db, claim, b2), d, t);
    Chain(cfg, key, s, a + b + c + d, t, e, Alone(db', claim));
    steps := a + b + c + d + e;
  }

  /** The claim goes by what it read and takes the worker offline. */
  lemma ClaimExpels(cfg: Config, key: string -> int, db: Store, seen: Tx, w: string, now: int) returns (steps: seq<Step>, db': Store)
    requires w in db.workers && seen.worker.Some? && seen.worker.value.lastSeenAt < now - cfg.workerTtl
    requires seen == Opened(ClaimReq(w, now)).(phase := Seen, worker := seen.worker)
    ensures Leads(cfg, key, Alone(db, seen), steps, Sys(db', map[]))
    ensures w in db'.workers && db'.workers[w] == db.workers[w].(state := Offline)
  {
    hide Leads;
    var ready := seen.(phase := Ready, locks := seen.locks + {WorkerRow(w)}, workerWrites := map[w := db.workers[w].(state := Offline)]);
    AloneRuns(cfg, key, db, seen, ready);
    db' := Committed(db, ready);
    OneStep(cfg, key, Alone(db, ready), Step.Commit(0));
    assert map[0 := ready] - {0} == map[];
    var a, b := [Step.Statement(0, ready)], [Step.Commit(0)];
    Chain(cfg, key, Alone(db, seen), a, Alone(db, ready), b, Sys(db', map[]));
    steps := a + b;
  }

  /** Whenever a claim reads a worker past its time to live and the worker's heartbeat commits
      before the claim does, the worker ends up offline although it was heard from just now. */
  lemma FreshWorkerExpelled(cfg: Config, key: string -> int, db: Store, w: string, now: int) returns (steps: seq<Step>, t: Sys)
    requires w in db.workers && now - db.workers[w].lastSeenAt > cfg.workerTtl
    ensures Leads(cfg, key, Sys(db, map[]), steps, t)
    ensures t.txs == map[] && w in t.db.workers && t.db.workers[w].state.Offline? && t.db.workers[w].lastSeenAt == now
  {
    hide Leads, Exec;
    var a, seen := ClaimReads(cfg, key, db, w, now);
    var b, beaten := BeatCommits(cfg, key, db, seen, w, now);
    var c, expelled := ClaimExpels(cfg, key, beaten, seen, w, now);
    t := Sys(expelled, map[]);
    Chain(cfg, key, Sys(db, map[]), a, Alone(db, seen), b, Alone(beaten, seen));
    Chain(cfg, key, Sys(db, map[]), a + b, Alone(beaten, seen), c, t);
    steps := a + b + c;
  }
}
