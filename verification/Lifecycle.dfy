/** The coordinator of one owned runtime: it starts, polls, stops and releases it, and
    remembers in one flag whether the runtime has been released. */
module Lifecycle {
  import opened Contracts

  datatype HealthState = Stopped | Starting | Ready | Degraded | Failed

  datatype Health = Health(state: HealthState, ready: bool)

  datatype Outcome = Returned | Raised

  /** What the runtime answers during one call.  `health(k)` is its k-th answer, with
      `None` for a raise; `late(k)` says whether the deadline has passed when the k-th
      answer is judged, which happens at the latest for answer `bound`. */
  datatype Replies = Replies(health: nat -> Option<Health>, late: nat -> bool, bound: nat,
                             started: bool, stopped: bool, freed: bool)

  predicate Ticks(r: Replies) {
    r.late(r.bound)
  }

  /** The manager's flag next to the runtime it owns: `processes` says that an owned
      process may exist, `reserved` that the runtime still holds resources. */
  datatype Owned = Owned(released: bool, processes: bool, reserved: bool)

  /** The flag is truthful when a released runtime owns nothing. */
  predicate Truthful(m: Owned) {
    m.released ==> !m.processes && !m.reserved
  }

  // --------------------------------------------------------------- specification

  /** The verdict of polling for readiness from answer `k` on. */
  function Awaited(r: Replies, k: nat): Outcome
    requires Ticks(r) && k <= r.bound
    decreases r.bound - k
  {
    match r.health(k)
    case None => Raised
    case Some(h) =>
      if h.ready then Returned
      else if h.state.Failed? || r.late(k) then Raised
      else Awaited(r, k + 1)
  }

  /** The verdict of polling for STOPPED from answer `k` on. */
  function Halted(r: Replies, k: nat): Outcome
    requires Ticks(r) && k <= r.bound
    decreases r.bound - k
  {
    match r.health(k)
    case None => Raised
    case Some(h) =>
      if h.state.Stopped? then Returned
      else if h.state.Failed? || r.late(k) then Raised
      else Halted(r, k + 1)
  }

  /** Answer `j` keeps the polling going or ends it well: it is no raise, no failure, and the
      deadline has not passed when it is judged. */
  predicate Pending(r: Replies, j: nat) {
    r.health(j).Some? && !r.health(j).value.state.Failed? && !r.late(j)
  }

  predicate ReadyAt(r: Replies, m: nat) {
    r.health(m).Some? && r.health(m).value.ready
  }

  predicate StoppedAt(r: Replies, m: nat) {
    r.health(m).Some? && r.health(m).value.state.Stopped?
  }

  /** Polling for readiness returns exactly when some answer is ready before any raise, any
      failure and the deadline: a deadline that has passed never counts as ready. */
  lemma {:induction false} AwaitedExactly(r: Replies, k: nat)
    requires Ticks(r) && k <= r.bound
    ensures Awaited(r, k).Returned? <==>
              exists m: nat :: k <= m <= r.bound && ReadyAt(r, m) && forall j: nat :: k <= j < m ==> Pending(r, j)
    decreases r.bound - k
  {
    if r.health(k).Some? && !r.health(k).value.ready && !r.health(k).value.state.Failed? && !r.late(k) {
      AwaitedExactly(r, k + 1);
      assert Pending(r, k) && !ReadyAt(r, k);
    } else if ReadyAt(r, k) {
      assert forall j: nat :: k <= j < k ==> Pending(r, j);
    } else {
      assert !Pending(r, k);
    }
  }

  lemma {:induction false} HaltedExactly(r: Replies, k: nat)
    requires Ticks(r) && k <= r.bound
    ensures Halted(r, k).Returned? <==>
              exists m: nat :: k <= m <= r.bound && StoppedAt(r, m) && forall j: nat :: k <= j < m ==> Pending(r, j)
    decreases r.bound - k
  {
    if r.health(k).Some? && !r.health(k).value.state.Stopped? && !r.health(k).value.state.Failed? && !r.late(k) {
      HaltedExactly(r, k + 1);
      assert Pending(r, k) && !StoppedAt(r, k);
    } else if StoppedAt(r, k) {
      assert forall j: nat :: k <= j < k ==> Pending(r, j);
    } else {
      assert !Pending(r, k);
    }
  }

  datatype Call =
    | EnsureReady(replies: Replies)
    | EnsureStopped(replies: Replies, release: bool)
    | ShutdownOwned(replies: Replies)

  predicate Starts(m: Owned, call: Call) {
    call.EnsureReady? && call.replies.health(0).Some?
    && !call.replies.health(0).value.ready && call.replies.health(0).value.state.Stopped?
  }

  function Result(m: Owned, call: Call): Outcome
    requires Ticks(call.replies) && call.replies.bound >= 1
  {
    var r := call.replies;
    match call
    case EnsureReady(_) =>
      if r.health(0).None? then Raised
      else if r.health(0).value.ready then Returned
      else if r.health(0).value.state.Failed? then Raised
      else if Starts(m, call) && !r.started then Raised
      else Awaited(r, 1)
    case EnsureStopped(_, release) =>
      if r.health(0).None? then Raised
      else if !r.health(0).value.state.Stopped? && (!r.stopped || Halted(r, 1).Raised?) then Raised
      else if release && !m.released && !r.freed then Raised
      else Returned
    case ShutdownOwned(_) => if m.released || (r.stopped && r.freed) then Returned else Raised
  }

  function Next(m: Owned, call: Call): Owned
    requires Ticks(call.replies) && call.replies.bound >= 1
  {
    var r := call.replies;
    match call
    case EnsureReady(_) =>
      var up := if Starts(m, call) then m.(processes := true, reserved := true) else m;
      if Result(m, call).Returned? then up.(released := false) else up
    case EnsureStopped(_, release) =>
      var down :=
        if r.health(0).None? then m
        else if r.health(0).value.state.Stopped? || r.stopped then m.(processes := false)
        else m;
      if Result(m, call).Returned? && release && !m.released
      then down.(reserved := false, released := true) else down
    case ShutdownOwned(_) =>
      if m.released || !r.stopped then m
      else if !r.freed then m.(processes := false)
      else m.(processes := false, reserved := false, released := true)
  }

  // ------------------------------------------------------------------ properties

  /** A readiness call returns exactly when the runtime answers ready at once, or is neither
      broken nor unstartable and answers ready before a raise, a failure and the deadline. */
  lemma ReadyExactly(m: Owned, r: Replies)
    requires Ticks(r) && r.bound >= 1
    ensures Result(m, EnsureReady(r)).Returned? <==>
              || ReadyAt(r, 0)
              || (&& r.health(0).Some? && !r.health(0).value.state.Failed?
                  && (StoppedAt(r, 0) ==> r.started)
                  && exists k: nat :: 1 <= k <= r.bound && ReadyAt(r, k) && forall j: nat :: 1 <= j < k ==> Pending(r, j))
    ensures Next(m, EnsureReady(r)).released == (m.released && Result(m, EnsureReady(r)).Raised?)
    ensures var started := StoppedAt(r, 0) && !ReadyAt(r, 0);
            Next(m, EnsureReady(r)).processes == (m.processes || started) && Next(m, EnsureReady(r)).reserved == (m.reserved || started)
  {
    AwaitedExactly(r, 1);
  }

  /** A stop returns exactly when the runtime is stopped, at once or after its own stop and
      before a raise, a failure and the deadline, and whatever was to be released is.  Then no
      process is left, and a manager asked to release has done so. */
  lemma StoppedExactly(m: Owned, r: Replies, release: bool)
    requires Ticks(r) && r.bound >= 1
    ensures Result(m, EnsureStopped(r, release)).Returned? <==>
              && r.health(0).Some? && (release && !m.released ==> r.freed)
              && (StoppedAt(r, 0)
                  || (r.stopped && exists k: nat :: 1 <= k <= r.bound && StoppedAt(r, k) && forall j: nat :: 1 <= j < k ==> Pending(r, j)))
    ensures Result(m, EnsureStopped(r, release)).Returned? ==>
              var t := Next(m, EnsureStopped(r, release));
              && !t.processes && t.released == (m.released || release)
              && t.reserved == (m.reserved && (m.released || !release))
    ensures Result(m, EnsureStopped(r, release)).Raised? ==>
              Next(m, EnsureStopped(r, release)) == m.(processes := m.processes && !(r.health(0).Some? && (StoppedAt(r, 0) || r.stopped)))
  {
    HaltedExactly(r, 1);
  }

  /** The one call that leaves a stale flag: a released manager starts its runtime again
      and the runtime does not become ready. */
  predicate Relapses(m: Owned, call: Call)
    requires Ticks(call.replies) && call.replies.bound >= 1
  {
    m.released && Starts(m, call) && Result(m, call).Raised?
  }

  lemma TruthfulUnlessRelapse(m: Owned, call: Call)
    requires Ticks(call.replies) && call.replies.bound >= 1
    requires Truthful(m)
    ensures Truthful(Next(m, call)) <==> !Relapses(m, call)
  {
  }

  predicate Runs(calls: seq<Call>) {
    forall k :: 0 <= k < |calls| ==> Ticks(calls[k].replies) && calls[k].replies.bound >= 1
  }

  function After(m: Owned, calls: seq<Call>): Owned
    requires Runs(calls)
    decreases |calls|
  {
    if calls == [] then m
    else assert Ticks(calls[0].replies); assert Runs(calls[1..]); After(Next(m, calls[0]), calls[1..])
  }

  predicate NeverRelapses(m: Owned, calls: seq<Call>)
    requires Runs(calls)
    decreases |calls|
  {
    calls == [] ||
    (assert Ticks(calls[0].replies); assert Runs(calls[1..]);
     !Relapses(m, calls[0]) && NeverRelapses(Next(m, calls[0]), calls[1..]))
  }

  /** Over any sequence of calls without a relapse the flag never lies. */
  lemma {:induction false} FlagStaysTruthful(m: Owned, calls: seq<Call>)
    requires Runs(calls) && Truthful(m) && NeverRelapses(m, calls)
    ensures Truthful(After(m, calls))
    decreases |calls|
  {
    if calls != [] {
      assert Ticks(calls[0].replies) && Runs(calls[1..]);
      TruthfulUnlessRelapse(m, calls[0]);
      FlagStaysTruthful(Next(m, calls[0]), calls[1..]);
    }
  }

  /** A shutdown that returns leaves nothing owned exactly when no relapse made the flag
      stale; one that raises leaves the flag down, so the next shutdown tries again. */
  lemma ShutdownOwnsNothing(m: Owned, calls: seq<Call>, r: Replies)
    requires Runs(calls) && Truthful(m) && NeverRelapses(m, calls)
    requires Ticks(r) && r.bound >= 1
    ensures var s := After(m, calls); var t := Next(s, ShutdownOwned(r));
            && (Result(s, ShutdownOwned(r)).Returned? ==> t.released && !t.processes && !t.reserved)
            && (Result(s, ShutdownOwned(r)).Raised? ==> !t.released)
  {
    FlagStaysTruthful(m, calls);
  }

  const COLD := Health(HealthState.Stopped, false)
  const BROKEN := Health(HealthState.Failed, false)

  // ------------------------------------------------------- what a caller can check first

  /** The guard before a readiness call: the manager has released its runtime, and the
      runtime's first answer is that it is stopped, so the call will start it. */
  predicate AtRisk(m: Owned, first: Option<Health>) {
    m.released && first.Some? && first.value.state.Stopped? && !first.value.ready
  }

  /** A runtime that answers `first`, is started and then fails. */
  function Failing(first: Option<Health>): Replies {
    Replies((k: nat) => if k == 0 then first else Some(BROKEN), (k: nat) => true, 1, true, true, true)
  }

  lemma FailingRelapses(m: Owned, first: Option<Health>)
    requires AtRisk(m, first)
    ensures var r := Failing(first);
            Ticks(r) && r.bound >= 1 && r.health(0) == first && !Truthful(Next(m, EnsureReady(r)))
  {
    assert Awaited(Failing(first), 1) == Raised;
  }

  /** The exact condition before the call: given the first answer, readiness keeps the flag
      truthful whatever the runtime does afterwards exactly when the guard is down. */
  lemma ReadySafeExactly(m: Owned, first: Option<Health>)
    requires Truthful(m)
    ensures (forall r: Replies :: Ticks(r) && r.bound >= 1 && r.health(0) == first ==> Truthful(Next(m, EnsureReady(r))))
            <==> !AtRisk(m, first)
  {
    if AtRisk(m, first) {
      FailingRelapses(m, first);
    } else {
      forall r: Replies | Ticks(r) && r.bound >= 1 && r.health(0) == first ensures Truthful(Next(m, EnsureReady(r))) {
        TruthfulUnlessRelapse(m, EnsureReady(r));
      }
    }
  }

  /** Without looking at the runtime at all, only a manager that has not released it is safe. */
  lemma ReadySafeUnlessReleased(m: Owned)
    requires Truthful(m)
    ensures (forall r: Replies :: Ticks(r) && r.bound >= 1 ==> Truthful(Next(m, EnsureReady(r)))) <==> !m.released
  {
    if m.released {
      FailingRelapses(m, Some(COLD));
    } else {
      forall r: Replies | Ticks(r) && r.bound >= 1 ensures Truthful(Next(m, EnsureReady(r))) {
        TruthfulUnlessRelapse(m, EnsureReady(r));
      }
    }
  }

  /** No call of the run is a readiness call behind a raised guard. */
  predicate Guarded(m: Owned, calls: seq<Call>)
    requires Runs(calls)
    decreases |calls|
  {
    calls == [] ||
    (assert Ticks(calls[0].replies); assert Runs(calls[1..]);
     (calls[0].EnsureReady? ==> !AtRisk(m, calls[0].replies.health(0))) && Guarded(Next(m, calls[0]), calls[1..]))
  }

  lemma {:induction false} GuardedNeverRelapses(m: Owned, calls: seq<Call>)
    requires Runs(calls) && Guarded(m, calls)
    ensures NeverRelapses(m, calls)
    decreases |calls|
  {
    if calls != [] {
      assert Ticks(calls[0].replies) && Runs(calls[1..]);
      GuardedNeverRelapses(Next(m, calls[0]), calls[1..]);
    }
  }

  /** With the guard checked before every readiness call, the flag never lies in any run, and
      a shutdown after it that returns leaves nothing owned. */
  lemma GuardedRunsAreTruthful(m: Owned, calls: seq<Call>, r: Replies)
    requires Runs(calls) && Truthful(m) && Guarded(m, calls)
    requires Ticks(r) && r.bound >= 1
    ensures Truthful(After(m, calls))
    ensures var s := After(m, calls); var t := Next(s, ShutdownOwned(r));
            Result(s, ShutdownOwned(r)).Returned? ==> t.released && !t.processes && !t.reserved
  {
    GuardedNeverRelapses(m, calls);
    FlagStaysTruthful(m, calls);
    ShutdownOwnsNothing(m, calls, r);
  }

  /** The relapse is real: after a clean shutdown, a start that ends FAILED leaves the
      flag up, and the next shutdown returns without stopping the started process. */
  lemma RelapseLeaksTheRuntime() returns (calls: seq<Call>)
    ensures Runs(calls) && |calls| == 3
    ensures After(Owned(false, true, true), calls[..1]) == Owned(true, false, false)
    ensures calls[2].ShutdownOwned? && Result(After(Owned(false, true, true), calls[..2]), calls[2]) == Returned
    ensures After(Owned(false, true, true), calls) == Owned(true, true, true)
  {
    var r := Replies((k: nat) => Some(if k == 0 then COLD else BROKEN), (k: nat) => true, 1, true, true, true);
    calls := [ShutdownOwned(r), EnsureReady(r), ShutdownOwned(r)];
    var m0 := Owned(false, true, true);
    var m1 := Next(m0, calls[0]);
    var m2 := Next(m1, calls[1]);
    assert Awaited(r, 1) == Raised;
    assert calls[..1] == [calls[0]];
    assert calls[..1][1..] == [] && After(m1, []) == m1;
    assert calls[..2][1..] == [calls[1]] && [calls[1]][1..] == [] && After(m2, []) == m2;
    assert After(m1, [calls[1]]) == m2;
    assert calls[1..][1..] == [calls[2]] && [calls[2]][1..] == [];
    assert After(m2, [calls[2]]) == Next(m2, calls[2]);
    assert calls[1..][0] == calls[1];
    assert After(m1, calls[1..]) == After(m2, [calls[2]]);
  }

  // ------------------------------------------------------------------ the object

  /** The manager with the runtime it owns, as far as the manager's calls change it. */
  class RuntimeLifecycleManager {
    var released: bool
    var processes: bool
    var reserved: bool

    function Now(): Owned
      reads this
    {
      Owned(released, processes, reserved)
    }

    constructor (processes: bool, reserved: bool)
      ensures Now() == Owned(false, processes, reserved) && Truthful(Now())
    {
      released, this.processes, this.reserved := false, processes, reserved;
    }

    method EnsureReadyNow(r: Replies) returns (outcome: Outcome)
      requires Ticks(r) && r.bound >= 1
      modifies this
      ensures Now() == Next(old(Now()), EnsureReady(r))
      ensures outcome == Result(old(Now()), EnsureReady(r))
    {
      var first := r.health(0);
      if first.None? { return Raised; }
      if first.value.ready {
        released := false;
        return Returned;
      }
      if first.value.state.Failed? { return Raised; }
      if first.value.state.Stopped? {
        processes, reserved := true, true;
        if !r.started { return Raised; }
      }
      var k := 1;
      while true
        invariant 1 <= k <= r.bound
        invariant released == old(released)
        invariant Owned(released, processes, reserved) == old(Now()).(processes := processes, reserved := reserved)
        invariant (processes, reserved) == if first.value.state.Stopped? then (true, true) else old((processes, reserved))
        invariant Awaited(r, k) == Awaited(r, 1)
        decreases r.bound - k
      {
        var h := r.health(k);
        if h.None? { return Raised; }
        if h.value.ready {
          released := false;
          return Returned;
        }
        if h.value.state.Failed? { return Raised; }
        if r.late(k) { return Raised; }
        k := k + 1;
      }
    }

    method EnsureStoppedNow(r: Replies, release: bool) returns (outcome: Outcome)
      requires Ticks(r) && r.bound >= 1
      modifies this
      ensures Now() == Next(old(Now()), EnsureStopped(r, release))
      ensures outcome == Result(old(Now()), EnsureStopped(r, release))
    {
      var first := r.health(0);
      if first.None? { return Raised; }
      if first.value.state.Stopped? {
        processes := false;
      } else {
        if !r.stopped { return Raised; }
        processes := false;
        var k := 1;
        while true
          invariant 1 <= k <= r.bound
          invariant Now() == old(Now()).(processes := false)
          invariant Halted(r, k) == Halted(r, 1)
          decreases r.bound - k
        {
          var h := r.health(k);
          if h.None? { return Raised; }
          if h.value.state.Stopped? { break; }
          if h.value.state.Failed? { return Raised; }
          if r.late(k) { return Raised; }
          k := k + 1;
        }
      }
      if release && !released {
        if !r.freed { return Raised; }
        reserved := false;
        released := true;
      }
      return Returned;
    }

    /** Idempotent: stops and releases once, and says so only when both succeeded. */
    method ShutdownOwnedNow(r: Replies) returns (outcome: Outcome)
      requires Ticks(r) && r.bound >= 1
      modifies this
      ensures Now() == Next(old(Now()), ShutdownOwned(r))
      ensures outcome == Result(old(Now()), ShutdownOwned(r))
    {
      if released { return Returned; }
      if !r.stopped { return Raised; }
      processes := false;
      if !r.freed { return Raised; }
      reserved := false;
      released := true;
      return Returned;
    }
  }
}
