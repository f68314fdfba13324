/** Deadlock freedom.  Every transaction but the bulk expiry asks for locks in rising
    rank: worker identity, GPU keys in order, job row, worker row. */
module PostgresLocks {
  import opened Contracts
  import opened Ledger
  import opened Postgres

  /** Rank of a lock: its class, and the key inside the GPU class. */
  function Rank(l: Lock): (int, int) {
    match l
    case Identity(_) => (0, 0)
    case Gpu(k) => (1, k)
    case JobRow(_) => (2, 0)
    case WorkerRow(_) => (3, 0)
    case UniqueKey(_) => (4, 0)
    case Sequence(_) => (4, 0)
    case Uuid(_) => (4, 0)
  }

  predicate Lower(a: (int, int), b: (int, int)) {
    a.0 < b.0 || (a.0 == b.0 && a.1 < b.1)
  }

  /** The worker row the ending requests decrement. */
  function Holder(tx: Tx): Option<string> {
    match tx.req
    case CompleteReq(_, _, w, _, _) => Some(w)
    case FailReq(_, _, _, w, _, _) => Some(w)
    case _ => if tx.job.Some? then tx.job.value.assignedWorker else None
  }

  function RowIf(known: bool, l: Lock): Option<Lock> {
    if known then Some(l) else None
  }

  function OwnershipWant(key: string -> int, db: Store, tx: Tx, w: string): Option<Lock> {
    match tx.phase
    case Begin => Some(Identity(key(w)))
    case Locking => if tx.pending != [] then Some(Gpu(tx.pending[0])) else RowIf(w in db.workers, WorkerRow(w))
    case Counted => Some(WorkerRow(w))
    case _ => None
  }

  /** The lock the next statement waits for; rows that SKIP LOCKED passes over are not waited for. */
  ghost function Next(cfg: Config, key: string -> int, db: Store, tx: Tx): Option<Lock> {
    match tx.req
    case RegisterReq(reg, _) => OwnershipWant(key, db, tx, reg.spec.workerId)
    case SetStateReq(w, _, _) => OwnershipWant(key, db, tx, w)
    case HeartbeatReq(w, beat, _) =>
      if tx.phase.Begin? && beat.Leased() then
        RowIf(beat.activeJobId.Some? && beat.activeJobId.value in db.jobs, JobRow(if beat.activeJobId.Some? then beat.activeJobId.value else ""))
      else if tx.phase.Begin? || tx.phase.JobWritten? then RowIf(w in db.workers, WorkerRow(w))
      else None
    case ClaimReq(w, now) =>
      if tx.phase.JobLocked? || (tx.phase.Seen? && tx.worker.Some? && tx.worker.value.lastSeenAt < now - cfg.workerTtl)
      then RowIf(w in db.workers, WorkerRow(w)) else None
    case CompleteReq(j, _, _, _, _) => EndingWant(db, tx, j)
    case FailReq(j, _, _, _, _, _) => EndingWant(db, tx, j)
    case CancelReq(j, _) => EndingWant(db, tx, j)
    case RecoverReq(_) =>
      if tx.phase.JobWritten? && Holder(tx).Some? then RowIf(Holder(tx).value in db.workers, WorkerRow(Holder(tx).value)) else None
    case ExpireReq(_) => None
    case SubmitReq(_, sub, _) => SubmitWant(db, tx, sub.idempotencyKey)
  }

  /** A lookup waits for the row that has the key, the insert for the key itself. */
  ghost function SubmitWant(db: Store, tx: Tx, key: Option<string>): Option<Lock> {
    if tx.phase.Begin? || tx.phase.Checked? then if KeyTaken(db, key) then Some(JobRow(KeyHolder(db, key))) else None
    else if tx.phase.Seen? && key.Some? then Some(UniqueKey(key.value))
    else None
  }

  function EndingWant(db: Store, tx: Tx, j: string): Option<Lock> {
    if tx.phase.Begin? then RowIf(j in db.jobs, JobRow(j))
    else if tx.phase.JobWritten? && Holder(tx).Some? then RowIf(Holder(tx).value in db.workers, WorkerRow(Holder(tx).value))
    else None
  }

  /** A transaction may wait for `l`: its next lock, or for the bulk expiry any worker row. */
  ghost predicate Wants(cfg: Config, key: string -> int, db: Store, tx: Tx, l: Lock) {
    l !in tx.locks && (if tx.req.ExpireReq? then l.WorkerRow? else Next(cfg, key, db, tx) == Some(l))
  }

  /** `Next` is the only thing other transactions can block: a statement that would run
      alone runs as soon as its next lock is free.  (The statements that skip locked rows or
      draw a uuid or a sequence number choose among what is free instead.) */
  lemma OnlyNextBlocks(cfg: Config, key: string -> int, db: Store, held: set<Lock>, tx: Tx, tx': Tx)
    requires !tx.req.ExpireReq? && !(tx.req.RecoverReq? && tx.phase.Begin?)
    requires !(tx.req.ClaimReq? && (tx.phase.WorkerLocked? || (tx.phase.Seen? && Next(cfg, key, db, tx).None?)))
    requires !(tx.req.SubmitReq? && tx.phase.Seen? && !KeyTaken(db, tx.req.submission.idempotencyKey))
    requires Exec(cfg, key, db, {}, tx, tx')
    ensures Exec(cfg, key, db, held, tx, tx') <==>
            !(Next(cfg, key, db, tx).Some? && Next(cfg, key, db, tx).value in held)
  {
  }

  // ------------------------------------------------------------ what is held when

  predicate OwnershipShape(key: string -> int, tx: Tx, w: string) {
    && (tx.phase.Begin? ==> tx.locks == {})
    && (tx.phase.Identified? ==> tx.locks == {Identity(key(w))})
    && (tx.phase.Locking? ==> Ascending(tx.pending) && forall l :: l in tx.locks ==>
          l.Identity? || (l.Gpu? && forall k :: k in tx.pending ==> l.key < k))
    && (forall l :: l in tx.locks ==> l.Identity? || l.Gpu? || l == WorkerRow(w))
  }

  predicate RowShape(tx: Tx) {
    && (tx.phase.Begin? || tx.phase.Seen? || tx.phase.Checked? ==> tx.locks == {})
    && (tx.phase.JobLocked? || (tx.phase.JobWritten? && !tx.req.ClaimReq?) ==> forall l :: l in tx.locks ==> l.JobRow?)
  }

  /** The locks held at each point of a transaction. */
  predicate Shape(key: string -> int, tx: Tx) {
    match tx.req
    case RegisterReq(reg, _) => OwnershipShape(key, tx, reg.spec.workerId)
    case SetStateReq(w, _, _) => OwnershipShape(key, tx, w)
    case ExpireReq(_) => forall l :: l in tx.locks ==> l.WorkerRow?
    case _ => RowShape(tx)
  }

  lemma OwnershipKeepsShape(cfg: Config, key: string -> int, db: Store, held: set<Lock>, tx: Tx, tx': Tx, w: string, requested: set<string>)
    requires OwnershipShape(key, tx, w) && ExecOwnership(key, db, held, tx, tx', w, requested)
    ensures OwnershipShape(key, tx', w)
  {
    if tx.phase.Locking? && tx.pending != [] {
      forall k | k in tx'.pending ensures k in tx.pending && tx.pending[0] < k {
        var i :| 0 <= i < |tx'.pending| && tx'.pending[i] == k;
        assert tx.pending[i+1] == k;
      }
    }
  }

  lemma HeartbeatKeepsShape(cfg: Config, key: string -> int, db: Store, held: set<Lock>, tx: Tx, tx': Tx)
    requires tx.req.HeartbeatReq? && RowShape(tx) && Exec(cfg, key, db, held, tx, tx')
    ensures tx'.req == tx.req && RowShape(tx')
  {
    hide LeaseHeld, StaysReleased, RunningCount, Renewed, MergeMetadata;
  }

  lemma ClaimKeepsShape(cfg: Config, key: string -> int, db: Store, held: set<Lock>, tx: Tx, tx': Tx)
    requires tx.req.ClaimReq? && RowShape(tx) && Exec(cfg, key, db, held, tx, tx')
    ensures tx'.req == tx.req && RowShape(tx')
  {
    hide Eligible, ClaimedBefore, Claimed;
  }

  lemma EndingKeepsShape(cfg: Config, key: string -> int, db: Store, held: set<Lock>, tx: Tx, tx': Tx)
    requires tx.req.CompleteReq? || tx.req.FailReq? || tx.req.CancelReq? || tx.req.RecoverReq?
    requires RowShape(tx) && Exec(cfg, key, db, held, tx, tx')
    ensures tx'.req == tx.req && RowShape(tx')
  {
    hide LeaseHeld, Expired, Completed, Retried, Dropped, Release;
  }

  lemma SubmitKeepsShape(cfg: Config, key: string -> int, db: Store, held: set<Lock>, tx: Tx, tx': Tx)
    requires tx.req.SubmitReq? && RowShape(tx) && Exec(cfg, key, db, held, tx, tx')
    ensures tx'.req == tx.req && RowShape(tx')
  {
    hide KeyTaken, NewJob, InsertLocks;
  }

  lemma StatementKeepsShape(cfg: Config, key: string -> int, db: Store, held: set<Lock>, tx: Tx, tx': Tx)
    requires Shape(key, tx) && Exec(cfg, key, db, held, tx, tx')
    ensures tx'.req == tx.req && Shape(key, tx')
  {
    hide RowShape, OwnershipShape;
    match tx.req
    case RegisterReq(reg, _) =>
      hide NoOverlap, RunningCount;
      if tx.phase.Begin? || tx.phase.Identified? || tx.phase.Locking? {
        OwnershipKeepsShape(cfg, key, db, held, tx, tx', reg.spec.workerId, Gpus(reg.spec));
      } else {
        LateKeepsShape(key, tx, tx', reg.spec.workerId);
      }
    case SetStateReq(w, _, _) =>
      hide NoOverlap;
      if tx.phase.Begin? || tx.phase.Identified? || tx.phase.Locking? {
        OwnershipKeepsShape(cfg, key, db, held, tx, tx', w, {});
      } else {
        LateKeepsShape(key, tx, tx', w);
      }
    case HeartbeatReq(_, _, _) => HeartbeatKeepsShape(cfg, key, db, held, tx, tx');
    case ClaimReq(_, _) => ClaimKeepsShape(cfg, key, db, held, tx, tx');
    case ExpireReq(_) =>
    case SubmitReq(_, _, _) => SubmitKeepsShape(cfg, key, db, held, tx, tx');
    case _ => EndingKeepsShape(cfg, key, db, held, tx, tx');
  }

  lemma LateKeepsShape(key: string -> int, tx: Tx, tx': Tx, w: string)
    requires OwnershipShape(key, tx, w) && tx'.locks <= tx.locks + {WorkerRow(w)}
    requires tx'.phase.Checked? || tx'.phase.Counted? || tx'.phase.Ready?
    ensures OwnershipShape(key, tx', w)
  {
  }

  ghost predicate Shaped(key: string -> int, s: Sys) {
    forall t :: t in s.txs ==> Shape(key, s.txs[t])
  }

  lemma {:induction false} RunKeepsShape(cfg: Config, key: string -> int, s: Sys, steps: seq<Step>)
    requires Shaped(key, s) && Runs(cfg, key, s, steps)
    ensures Shaped(key, After(cfg, key, s, steps))
    decreases |steps|
  {
    if steps != [] {
      var s' := DoStep(cfg, key, s, steps[0]);
      if steps[0].Statement? {
        StatementKeepsShape(cfg, key, s.db, HeldByOthers(s, steps[0].t), s.txs[steps[0].t], steps[0].after);
      }
      assert Shaped(key, s');
      RunKeepsShape(cfg, key, s', steps[1..]);
    }
  }

  /** Strictly rising rank, for every transaction that is not a bulk expiry. */
  lemma RisingRank(cfg: Config, key: string -> int, db: Store, tx: Tx, l: Lock)
    requires Shape(key, tx) && Wants(cfg, key, db, tx, l) && !tx.req.ExpireReq?
    ensures forall h :: h in tx.locks ==> Lower(Rank(h), Rank(l))
  {
    if (tx.req.RegisterReq? || tx.req.SetStateReq?) && tx.phase.Locking? && tx.pending != [] {
      assert tx.pending[0] in tx.pending;
    }
  }

  // ------------------------------------------------------------------ wait cycles

  /** Transaction `t` waits for `u` over lock `l`. */
  ghost predicate Waits(cfg: Config, key: string -> int, s: Sys, t: nat, l: Lock, u: nat) {
    t in s.txs && u in s.txs && Wants(cfg, key, s.db, s.txs[t], l) && l in s.txs[u].locks
  }

  /** Each transaction of `walk` waits for the next one. */
  ghost predicate WaitWalk(cfg: Config, key: string -> int, s: Sys, walk: seq<nat>, over: seq<Lock>) {
    && |walk| == |over| + 1
    && (forall i :: 0 <= i < |over| ==> Waits(cfg, key, s, walk[i], over[i], walk[i+1]))
  }

  /** Along a walk the wanted rank never falls, and rises into a transaction that is not an expiry. */
  lemma WaitRaisesRank(cfg: Config, key: string -> int, s: Sys, t: nat, l: Lock, u: nat, m: Lock)
    requires Shaped(key, s) && Waits(cfg, key, s, t, l, u) && Wants(cfg, key, s.db, s.txs[u], m)
    ensures !Lower(Rank(m), Rank(l))
    ensures !s.txs[u].req.ExpireReq? ==> Lower(Rank(l), Rank(m))
  {
    if !s.txs[u].req.ExpireReq? { RisingRank(cfg, key, s.db, s.txs[u], m); }
  }

  lemma WalkEdge(cfg: Config, key: string -> int, s: Sys, walk: seq<nat>, over: seq<Lock>, i: nat)
    requires WaitWalk(cfg, key, s, walk, over) && i < |over|
    ensures Waits(cfg, key, s, walk[i], over[i], walk[i+1])
  {
    var here := over[i];
  }

  lemma NextRank(cfg: Config, key: string -> int, s: Sys, walk: seq<nat>, over: seq<Lock>, i: nat)
    requires Shaped(key, s) && WaitWalk(cfg, key, s, walk, over) && i + 1 < |over|
    ensures !Lower(Rank(over[i+1]), Rank(over[i]))
  {
    WalkEdge(cfg, key, s, walk, over, i);
    WalkEdge(cfg, key, s, walk, over, i + 1);
    WaitRaisesRank(cfg, key, s, walk[i], over[i], walk[i+1], over[i+1]);
  }

  lemma {:induction false} WalkRank(cfg: Config, key: string -> int, s: Sys, walk: seq<nat>, over: seq<Lock>, i: nat, k: nat)
    requires Shaped(key, s) && WaitWalk(cfg, key, s, walk, over) && i <= k < |over|
    ensures !Lower(Rank(over[k]), Rank(over[i]))
    decreases k - i
  {
    if i < k {
      NextRank(cfg, key, s, walk, over, i);
      WalkRank(cfg, key, s, walk, over, i + 1, k);
    }
  }

  lemma InitialShaped(key: string -> int)
    ensures Shaped(key, INITIAL)
  {
  }

  /** In every reachable state a closed walk of waiting transactions consists of bulk
      expiries only: register, set_state, heartbeat, submit, claim, complete, fail, cancel
      and recover never take part in a deadlock. */
  lemma WaitCyclesAreExpiries(cfg: Config, key: string -> int, steps: seq<Step>, walk: seq<nat>, over: seq<Lock>, k: nat)
    requires Runs(cfg, key, INITIAL, steps)
    requires var s := After(cfg, key, INITIAL, steps);
      WaitWalk(cfg, key, s, walk, over) && |over| > 0 && walk[0] == walk[|over|]
    requires k < |walk|
    ensures walk[k] in After(cfg, key, INITIAL, steps).txs
    ensures After(cfg, key, INITIAL, steps).txs[walk[k]].req.ExpireReq?
  {
    hide Runs, After, Shaped;
    var s := After(cfg, key, INITIAL, steps);
    InitialShaped(key);
    RunKeepsShape(cfg, key, INITIAL, steps);
    var n := |over|;
    WalkEdge(cfg, key, s, walk, over, 0);
    WalkEdge(cfg, key, s, walk, over, n - 1);
    WaitRaisesRank(cfg, key, s, walk[n-1], over[n-1], walk[0], over[0]);
    WalkRank(cfg, key, s, walk, over, 0, n - 1);
    if 0 < k < n {
      WalkEdge(cfg, key, s, walk, over, k - 1);
      WalkEdge(cfg, key, s, walk, over, k);
      WaitRaisesRank(cfg, key, s, walk[k-1], over[k-1], walk[k], over[k]);
      WalkRank(cfg, key, s, walk, over, 0, k - 1);
      WalkRank(cfg, key, s, walk, over, k, n - 1);
    }
  }

  /** A worker row a bulk expiry at `now` marks, and nobody holds. */
  ghost predicate FreeAndStale(cfg: Config, s: Sys, w: string, now: int) {
    && w in s.db.workers && !s.db.workers[w].state.Offline? && s.db.workers[w].lastSeenAt < now - cfg.workerTtl
    && forall t :: t in s.txs ==> WorkerRow(w) !in s.txs[t].locks
  }

  function Marking(s: Sys, t: nat, w: string): Tx
    requires t in s.txs && w in s.db.workers
  {
    var tx := s.txs[t];
    tx.(locks := tx.locks + {WorkerRow(w)}, workerWrites := tx.workerWrites[w := s.db.workers[w].(state := Offline)])
  }

  lemma MarkStep(cfg: Config, key: string -> int, s: Sys, t: nat, w: string, now: int)
    requires t in s.txs && s.txs[t] == Opened(ExpireReq(now))
    requires w in s.db.workers && !s.db.workers[w].state.Offline? && s.db.workers[w].lastSeenAt < now - cfg.workerTtl
    requires WorkerRow(w) !in HeldByOthers(s, t)
    ensures CanStep(cfg, key, s, Step.Statement(t, Marking(s, t, w)))
  {
    assert MarksRow(cfg, s.db, HeldByOthers(s, t), s.txs[t], Marking(s, t, w), w);
  }

  /** And such cycles do arise: two expiries that start over two stale workers can each mark
      one and then wait for the other. */
  lemma ExpiriesCanDeadlock(cfg: Config, key: string -> int, s: Sys, t: nat, u: nat, v: string, w: string, now: int)
    returns (steps: seq<Step>)
    requires t in s.txs && u in s.txs && t != u
    requires s.txs[t] == Opened(ExpireReq(now)) && s.txs[u] == Opened(ExpireReq(now))
    requires v != w && FreeAndStale(cfg, s, v, now) && FreeAndStale(cfg, s, w, now)
    ensures Runs(cfg, key, s, steps)
    ensures WaitWalk(cfg, key, After(cfg, key, s, steps), [t, u, t], [WorkerRow(w), WorkerRow(v)])
  {
    var first := Step.Statement(t, Marking(s, t, v));
    MarkStep(cfg, key, s, t, v, now);
    var s1 := DoStep(cfg, key, s, first);
    var second := Step.Statement(u, Marking(s1, u, w));
    MarkStep(cfg, key, s1, u, w, now);
    var s2 := DoStep(cfg, key, s1, second);
    steps := [first, second];
    assert steps[1..] == [second] && [second][1..] == [];
    assert Runs(cfg, key, s2, []) && After(cfg, key, s2, []) == s2;
    assert Runs(cfg, key, s1, [second]) && After(cfg, key, s1, [second]) == s2;
    hide CanStep, DoStep;
    assert Waits(cfg, key, s2, t, WorkerRow(w), u) && Waits(cfg, key, s2, u, WorkerRow(v), t);
  }

  /** Transactions whose next lock ranks above `l`. */
  ghost function Above(cfg: Config, key: string -> int, s: Sys, l: Lock): set<nat> {
    set t | t in s.txs && Next(cfg, key, s.db, s.txs[t]).Some? && Lower(Rank(l), Rank(Next(cfg, key, s.db, s.txs[t]).value))
  }

  ghost predicate Blocked(cfg: Config, key: string -> int, s: Sys, t: nat) {
    exists l, u :: Waits(cfg, key, s, t, l, u)
  }

  /** While no bulk expiry is running, following the waits from any transaction ends at
      one whose next lock is free. */
  lemma {:induction false} SomeoneCanProceed(cfg: Config, key: string -> int, s: Sys, t: nat) returns (free: nat)
    requires Shaped(key, s) && t in s.txs && (forall u :: u in s.txs ==> !s.txs[u].req.ExpireReq?)
    ensures free in s.txs && !Blocked(cfg, key, s, free)
    decreases if Next(cfg, key, s.db, s.txs[t]).Some? then |Above(cfg, key, s, Next(cfg, key, s.db, s.txs[t]).value)| + 1 else 0
  {
    if Blocked(cfg, key, s, t) {
      var l, u :| Waits(cfg, key, s, t, l, u);
      if Blocked(cfg, key, s, u) {
        var m, v :| Waits(cfg, key, s, u, m, v);
        WaitRaisesRank(cfg, key, s, t, l, u, m);
        assert u in Above(cfg, key, s, l) && u !in Above(cfg, key, s, m);
        assert Above(cfg, key, s, m) < Above(cfg, key, s, l);
        SmallerSet(Above(cfg, key, s, m), Above(cfg, key, s, l));
        free := SomeoneCanProceed(cfg, key, s, u);
      } else {
        free := u;
      }
    } else {
      free := t;
    }
  }

  lemma SmallerSet<T>(a: set<T>, b: set<T>)
    requires a < b
    ensures |a| < |b|
  {
    var x :| x in b && x !in a;
    assert a <= b - {x};
    SubsetSize(a, b - {x});
  }

  lemma {:induction false} SubsetSize<T>(a: set<T>, b: set<T>)
    requires a <= b
    ensures |a| <= |b|
    decreases a
  {
    if a != {} {
      var x :| x in a;
      SubsetSize(a - {x}, b - {x});
    }
  }
}
