/** The health authority of one owned runtime.  Its coroutines are cut at their awaits:
    each step below runs without interleaving.  The probe lock is `probing`: at most one
    probe is in flight. */
module Supervision {
  import opened Contracts

  datatype Health = Ready | NotReady | Invalid

  datatype Reason = Stale | TimedOut | InvalidResult | NotReadyResult | Exception | MonitorStopped

  /** Probe period and total probe budget, both positive. */
  datatype Policy = Policy(interval: real, timeout: real) {
    predicate Valid() { interval > 0.0 && timeout > 0.0 }
  }

  datatype State = State(
    clock: real, validUntil: real, reason: Option<Reason>, failed: bool, closed: bool,
    initialized: bool, probing: Option<real>)

  datatype Step =
    | Begin(now: real)                   // probe lock taken, up to awaiting the runtime
    | Return(now: real, health: Health)  // the runtime answered
    | Expire(now: real)                  // the budget ran out with the probe in flight
    | WaitExpire(now: real)              // the budget ran out waiting for the probe lock
    | Raise(now: real)                   // the probe raised
    | Abandon(now: real)                 // the caller of the probe was cancelled
    | Checked(now: real)                 // the monitor's own check came back
    | Look(now: real)                    // someone read availability
    | StopMonitor(now: real)             // the supervising task ended
    | Close(now: real)

  function Failing(s: State, reason: Reason): State {
    if s.failed || s.closed then s else s.(validUntil := 0.0, reason := Some(reason), failed := true)
  }

  /** Reading availability at the current clock: a lapsed health lease latches failure. */
  function Looked(s: State): State {
    if s.validUntil != 0.0 && s.clock >= s.validUntil then Failing(s, Stale) else s
  }

  predicate Admits(s: State) {
    !s.closed && !s.failed && s.validUntil != 0.0
  }

  /** The answer availability gives when read now. */
  predicate Available(s: State) {
    Admits(Looked(s))
  }

  /** The gate a probe passes before it starts and again when its answer arrives. */
  predicate GateOpen(s: State) {
    !s.closed && !s.failed && (s.validUntil != 0.0 ==> Available(s))
  }

  function Gated(s: State): State {
    if !s.closed && !s.failed && s.validUntil != 0.0 then Looked(s) else s
  }

  function Judged(p: Policy, s: State, started: real, health: Health): State {
    if s.clock - started >= p.timeout then Failing(s, TimedOut)
    else if health.Invalid? then Failing(s, InvalidResult)
    else if health.NotReady? then Failing(s, NotReadyResult)
    else s.(validUntil := started + p.interval + p.timeout)
  }

  predicate CanStep(s: State, step: Step) {
    && s.clock <= step.now
    && (step.Begin? ==> s.probing.None?)
    && (step.Return? || step.Expire? || step.Raise? || step.Abandon? ==> s.probing.Some?)
  }

  function Next(p: Policy, s: State, step: Step): State
    requires CanStep(s, step)
  {
    var at := s.(clock := step.now);
    match step
    case Begin(now) => if GateOpen(at) then Gated(at).(probing := Some(now)) else Gated(at)
    case Return(now, health) =>
      var seen := Gated(at).(probing := None);
      Looked(if GateOpen(at) then Judged(p, seen, s.probing.value, health) else seen)
    case Expire(now) => Looked(Failing(at.(probing := None), TimedOut))
    case WaitExpire(now) => Looked(Failing(at, TimedOut))
    case Raise(now) => Looked(Failing(at.(probing := None), Exception))
    case Abandon(now) => at.(probing := None)
    case Checked(now) => at.(initialized := true)
    case Look(now) => Looked(at)
    case StopMonitor(now) => (if at.closed then at else Failing(at, MonitorStopped)).(initialized := true)
    case Close(now) => at.(closed := true, validUntil := 0.0)
  }

  function Fresh(clock: real): State {
    State(clock, 0.0, None, false, false, false, None)
  }

  predicate Runs(p: Policy, s: State, steps: seq<Step>)
    decreases |steps|
  {
    steps == [] || (CanStep(s, steps[0]) && Runs(p, Next(p, s, steps[0]), steps[1..]))
  }

  function After(p: Policy, s: State, steps: seq<Step>): State
    requires Runs(p, s, steps)
    decreases |steps|
  {
    if steps == [] then s else After(p, Next(p, s, steps[0]), steps[1..])
  }

  // ----------------------------------------------------------------- latching

  lemma LatchedOneStep(p: Policy, s: State, step: Step)
    requires CanStep(s, step) && (s.failed || s.closed)
    ensures Next(p, s, step).failed == s.failed && (s.closed ==> Next(p, s, step).closed)
    ensures !Available(Next(p, s, step))
  {
  }

  /** Once failed or closed the supervisor never admits again, whatever probes return later. */
  lemma {:induction false} LatchedForever(p: Policy, s: State, steps: seq<Step>)
    requires Runs(p, s, steps) && (s.failed || s.closed)
    ensures !Available(After(p, s, steps))
    ensures forall t :: t >= After(p, s, steps).clock ==> !Available(After(p, s, steps).(clock := t))
    ensures After(p, s, steps).failed || After(p, s, steps).closed
    decreases |steps|
  {
    if steps != [] {
      LatchedOneStep(p, s, steps[0]);
      LatchedForever(p, Next(p, s, steps[0]), steps[1..]);
    }
  }

  // ----------------------------------------------------------------- evidence

  /** Steps `i` and `k` are the start and the READY answer of one probe within its budget. */
  predicate Probe(p: Policy, steps: seq<Step>, i: nat, k: nat) {
    && i < k < |steps| && steps[i].Begin? && steps[k].Return? && steps[k].health.Ready?
    && steps[i].now <= steps[k].now < steps[i].now + p.timeout
    && (forall m :: i < m < k ==> !steps[m].Begin? && !steps[m].Return?)
  }

  /** What the past steps say about the present state. */
  ghost predicate Explained(p: Policy, steps: seq<Step>, s: State) {
    && s.clock >= 0.0
    && (forall i :: 0 <= i < |steps| ==> steps[i].now <= s.clock)
    && (s.probing.Some? ==> exists i: nat :: InFlight(steps, i) && steps[i].now == s.probing.value)
    && (s.validUntil != 0.0 ==>
          exists i: nat, k: nat :: Probe(p, steps, i, k) && s.validUntil == steps[i].now + p.interval + p.timeout)
  }

  /** Step `i` started a probe that nothing has ended or replaced since. */
  predicate InFlight(steps: seq<Step>, i: nat) {
    && i < |steps| && steps[i].Begin? && steps[i].now >= 0.0
    && (forall m :: i < m < |steps| ==> !steps[m].Begin? && !steps[m].Return?)
  }

  lemma ProbeKept(p: Policy, steps: seq<Step>, step: Step, i: nat, k: nat)
    requires Probe(p, steps, i, k)
    ensures Probe(p, steps + [step], i, k)
  {
  }

  lemma ExplainedOneStep(p: Policy, past: seq<Step>, s: State, step: Step)
    requires p.Valid() && Explained(p, past, s) && CanStep(s, step)
    ensures Explained(p, past + [step], Next(p, s, step))
  {
    var t, all := Next(p, s, step), past + [step];
    if s.validUntil != 0.0 {
      var i: nat, k: nat :| Probe(p, past, i, k) && s.validUntil == past[i].now + p.interval + p.timeout;
      ProbeKept(p, past, step, i, k);
      assert all[i] == past[i];
    }
    if s.probing.Some? {
      var i: nat :| InFlight(past, i) && past[i].now == s.probing.value;
      assert all[i] == past[i] && all[i].now <= s.clock;
      if t.probing.Some? { assert InFlight(all, i); }
      if t.validUntil != s.validUntil && t.validUntil != 0.0 {
        assert Probe(p, all, i, |past|);
      }
    }
    if step.Begin? { assert InFlight(all, |past|); }
  }

  lemma {:induction false} RunExplained(p: Policy, past: seq<Step>, s: State, steps: seq<Step>)
    requires p.Valid() && Explained(p, past, s) && Runs(p, s, steps)
    ensures Explained(p, past + steps, After(p, s, steps))
    decreases |steps|
  {
    if steps == [] {
      assert past + steps == past;
    } else {
      ExplainedOneStep(p, past, s, steps[0]);
      RunExplained(p, past + [steps[0]], Next(p, s, steps[0]), steps[1..]);
      assert past + [steps[0]] + steps[1..] == past + steps;
    }
  }

  /** An answered probe is over by now. */
  lemma ProbeEnds(p: Policy, steps: seq<Step>, s: State)
    requires Explained(p, steps, s)
    ensures forall i: nat, k: nat :: Probe(p, steps, i, k) ==> i < |steps| && k < |steps| && steps[k].now <= s.clock
  {
    hide InFlight;
  }

  /** Whenever availability is reported at time `t`, one probe of this run started less
      than an interval and a budget before `t` and answered READY within its budget. */
  lemma AvailabilityHasEvidence(p: Policy, start: real, steps: seq<Step>, t: real) returns (i: nat, k: nat)
    requires p.Valid() && start >= 0.0 && Runs(p, Fresh(start), steps)
    requires After(p, Fresh(start), steps).clock <= t
    requires Available(After(p, Fresh(start), steps).(clock := t))
    ensures Probe(p, steps, i, k)
    ensures steps[k].now <= t < steps[i].now + p.interval + p.timeout
  {
    hide Runs, After, Probe, InFlight;
    var s := After(p, Fresh(start), steps);
    RunExplained(p, [], Fresh(start), steps);
    assert [] + steps == steps;
    ProbeEnds(p, steps, s);
    i, k :| Probe(p, steps, i, k) && s.validUntil == steps[i].now + p.interval + p.timeout;
  }

  // ----------------------------------------------------- availability, exactly

  /** When the probe in flight after these steps was started. */
  function LastBegin(steps: seq<Step>): Option<real> {
    if steps == [] then None
    else if steps[|steps|-1].Begin? then Some(steps[|steps|-1].now)
    else LastBegin(steps[..|steps|-1])
  }

  /** The end of the health lease that the last answer gave: an interval and a budget after
      its probe was started. */
  function LeaseEnd(p: Policy, steps: seq<Step>): Option<real> {
    if steps == [] then None
    else if steps[|steps|-1].Return? then
      var begun := LastBegin(steps[..|steps|-1]);
      if begun.Some? then Some(begun.value + p.interval + p.timeout) else None
    else LeaseEnd(p, steps[..|steps|-1])
  }

  /** A step that ends availability for good, whatever came before it. */
  predicate Fatal(step: Step) {
    || step.Close? || step.StopMonitor? || step.Expire? || step.WaitExpire? || step.Raise?
    || (step.Return? && !step.health.Ready?)
  }

  /** The step leaves the health lease running: an answer has to be READY, to arrive within
      the budget of its probe and, but for the first one, before the lease so far is over. */
  predicate Harmless(p: Policy, past: seq<Step>, step: Step) {
    && !Fatal(step)
    && (step.Return? ==>
          && LastBegin(past).Some? && step.now < LastBegin(past).value + p.timeout
          && (LeaseEnd(p, past).Some? ==> step.now < LeaseEnd(p, past).value))
  }

  predicate AllHarmless(p: Policy, steps: seq<Step>) {
    forall k :: 0 <= k < |steps| ==> Harmless(p, steps[..k], steps[k])
  }

  /** The lease the steps gave is over. */
  predicate Lapsed(p: Policy, steps: seq<Step>, now: real) {
    LeaseEnd(p, steps).Some? && LeaseEnd(p, steps).value <= now
  }

  /** The step fails a supervisor that is neither failed nor closed: it is fatal and no close,
      it is an answer that does not count, or it reads a lease that is over. */
  predicate Breaks(p: Policy, past: seq<Step>, step: Step) {
    || (Fatal(step) && !step.Close?)
    || (step.Return? && !Harmless(p, past, step))
    || ((step.Begin? || step.Look?) && Lapsed(p, past, step.now))
  }

  predicate Broken(p: Policy, steps: seq<Step>) {
    exists k :: 0 <= k < |steps| && Breaks(p, steps[..k], steps[k])
  }

  /** How the state follows from the steps taken. */
  ghost predicate Tracks(p: Policy, steps: seq<Step>, s: State) {
    && s.clock >= 0.0
    && (LastBegin(steps).Some? ==> LastBegin(steps).value >= 0.0)
    && (LeaseEnd(p, steps).Some? ==> LeaseEnd(p, steps).value > 0.0)
    && (s.probing.Some? ==> LastBegin(steps) == s.probing)
    && (if s.failed || s.closed then !AllHarmless(p, steps) || Lapsed(p, steps, s.clock)
        else
          && AllHarmless(p, steps)
          && s.validUntil == if LeaseEnd(p, steps).Some? then LeaseEnd(p, steps).value else 0.0)
    && (!s.closed ==> (s.failed <==> Broken(p, steps)))
    && (s.initialized <==> exists i :: 0 <= i < |steps| && (steps[i].Checked? || steps[i].StopMonitor?))
  }

  lemma BrokenAppended(p: Policy, past: seq<Step>, step: Step)
    ensures Broken(p, past + [step]) <==> Broken(p, past) || Breaks(p, past, step)
  {
    hide Breaks;
    var all := past + [step];
    assert all[..|past|] == past && all[|past|] == step;
    assert forall k :: 0 <= k < |past| ==> all[..k] == past[..k] && all[k] == past[k];
    if k :| 0 <= k < |past| && Breaks(p, past[..k], past[k]) {
      assert Breaks(p, all[..k], all[k]);
    }
  }

  lemma HarmlessAppended(p: Policy, past: seq<Step>, step: Step)
    ensures AllHarmless(p, past + [step]) <==> AllHarmless(p, past) && Harmless(p, past, step)
  {
    hide Harmless;
    var all := past + [step];
    assert all[..|past|] == past && all[|past|] == step;
    assert forall k :: 0 <= k < |past| ==> all[..k] == past[..k] && all[k] == past[k];
    if AllHarmless(p, all) {
      forall k | 0 <= k < |past| ensures Harmless(p, past[..k], past[k]) {
        assert Harmless(p, all[..k], all[k]);
      }
      assert Harmless(p, all[..|past|], all[|past|]);
    }
  }

  lemma InitializedAppended(past: seq<Step>, step: Step, before: bool)
    requires before <==> exists i :: 0 <= i < |past| && (past[i].Checked? || past[i].StopMonitor?)
    ensures before || step.Checked? || step.StopMonitor?
            <==> exists i :: 0 <= i < |past + [step]| && ((past + [step])[i].Checked? || (past + [step])[i].StopMonitor?)
  {
    var all := past + [step];
    if i :| 0 <= i < |past| && (past[i].Checked? || past[i].StopMonitor?) {
      assert all[i] == past[i];
    }
    assert all[|past|] == step;
    assert forall i :: 0 <= i < |past| ==> all[i] == past[i];
  }

  lemma TracksOneStep(p: Policy, past: seq<Step>, s: State, step: Step)
    requires p.Valid() && Tracks(p, past, s) && CanStep(s, step)
    ensures Tracks(p, past + [step], Next(p, s, step))
  {
    var all := past + [step];
    assert all[..|all|-1] == past && all[|all|-1] == step;
    HarmlessAppended(p, past, step);
    BrokenAppended(p, past, step);
    InitializedAppended(past, step, s.initialized);
    hide AllHarmless, Broken;
    assert LastBegin(all) == if step.Begin? then Some(step.now) else LastBegin(past);
    assert !step.Return? ==> LeaseEnd(p, all) == LeaseEnd(p, past);
    StepTracks(p, past, s, step, all);
  }

  /** The part of the step that does not depend on how the log is extended. */
  lemma StepTracks(p: Policy, past: seq<Step>, s: State, step: Step, all: seq<Step>)
    requires p.Valid() && Tracks(p, past, s) && CanStep(s, step)
    requires AllHarmless(p, all) <==> AllHarmless(p, past) && Harmless(p, past, step)
    requires Broken(p, all) <==> Broken(p, past) || Breaks(p, past, step)
    requires LastBegin(all) == if step.Begin? then Some(step.now) else LastBegin(past)
    requires LeaseEnd(p, all) == if !step.Return? then LeaseEnd(p, past)
                                 else if LastBegin(past).Some? then Some(LastBegin(past).value + p.interval + p.timeout) else None
    requires s.initialized || step.Checked? || step.StopMonitor?
             <==> exists i :: 0 <= i < |all| && (all[i].Checked? || all[i].StopMonitor?)
    ensures Tracks(p, all, Next(p, s, step))
  {
    hide AllHarmless, Broken, LastBegin, LeaseEnd;
  }

  lemma {:induction false} RunTracked(p: Policy, past: seq<Step>, s: State, steps: seq<Step>)
    requires p.Valid() && Tracks(p, past, s) && Runs(p, s, steps)
    ensures Tracks(p, past + steps, After(p, s, steps))
    decreases |steps|
  {
    hide Tracks, CanStep, Next;
    if steps == [] {
      assert past + steps == past;
    } else {
      TracksOneStep(p, past, s, steps[0]);
      RunTracked(p, past + [steps[0]], Next(p, s, steps[0]), steps[1..]);
      assert past + [steps[0]] + steps[1..] == past + steps;
    }
  }

  lemma TrackedAvailable(p: Policy, steps: seq<Step>, s: State, t: real)
    requires Tracks(p, steps, s) && s.clock <= t
    ensures Available(s.(clock := t)) <==>
              !s.closed && AllHarmless(p, steps) && LeaseEnd(p, steps).Some? && t < LeaseEnd(p, steps).value
  {
    hide AllHarmless, Broken, LastBegin, LeaseEnd;
  }

  /** In every run the supervisor is available at `t` exactly when every step so far was
      harmless, some probe was answered, and `t` is before the end of the lease of the last
      one.  Its monitor has reported exactly when a check of its own came back or it ended. */
  lemma AvailableExactly(p: Policy, start: real, steps: seq<Step>, t: real)
    requires p.Valid() && start >= 0.0 && Runs(p, Fresh(start), steps)
    requires After(p, Fresh(start), steps).clock <= t
    ensures Available(After(p, Fresh(start), steps).(clock := t)) <==>
              AllHarmless(p, steps) && LeaseEnd(p, steps).Some? && t < LeaseEnd(p, steps).value
    ensures After(p, Fresh(start), steps).initialized <==>
              exists i :: 0 <= i < |steps| && (steps[i].Checked? || steps[i].StopMonitor?)
  {
    hide Runs, After, AllHarmless, Broken;
    assert AllHarmless(p, []) && !Broken(p, []) by { EmptyHarmless(p); }
    RunTracked(p, [], Fresh(start), steps);
    assert [] + steps == steps;
  }

  lemma NothingYet(p: Policy)
    ensures LastBegin([]).None? && LeaseEnd(p, []).None?
  {
  }

  lemma EmptyHarmless(p: Policy)
    ensures AllHarmless(p, []) && !Broken(p, [])
  {
  }

  /** Before its close the supervisor has failed exactly when some step broke it. */
  lemma FailedExactly(p: Policy, start: real, steps: seq<Step>)
    requires p.Valid() && start >= 0.0 && Runs(p, Fresh(start), steps)
    requires !After(p, Fresh(start), steps).closed
    ensures After(p, Fresh(start), steps).failed <==> Broken(p, steps)
  {
    hide Runs, After, AllHarmless, Broken;
    assert AllHarmless(p, []) && !Broken(p, []) by { EmptyHarmless(p); }
    RunTracked(p, [], Fresh(start), steps);
    assert [] + steps == steps;
  }

  /** A probe that was not answered READY within its budget, a probe that raised or timed out,
      a monitor that ended and a close leave the supervisor unavailable in every continuation. */
  lemma FatalForGood(p: Policy, start: real, steps: seq<Step>, k: nat, t: real)
    requires p.Valid() && start >= 0.0 && Runs(p, Fresh(start), steps)
    requires After(p, Fresh(start), steps).clock <= t && k < |steps|
    requires Fatal(steps[k]) || (steps[k].Return? && (LastBegin(steps[..k]).None? || steps[k].now >= LastBegin(steps[..k]).value + p.timeout))
    ensures !Available(After(p, Fresh(start), steps).(clock := t))
  {
    AvailableExactly(p, start, steps, t);
    assert !Harmless(p, steps[..k], steps[k]);
  }

  /** A READY answer in budget while the lease runs keeps the supervisor available until the
      lease it gives is over, as long as nothing else happens. */
  lemma ReadyExtends(p: Policy, start: real, steps: seq<Step>, now: real, t: real)
    requires p.Valid() && start >= 0.0 && Runs(p, Fresh(start), steps)
    requires CanStep(After(p, Fresh(start), steps), Return(now, Ready))
    requires GateOpen(After(p, Fresh(start), steps).(clock := now))
    requires var begun := After(p, Fresh(start), steps).probing.value;
             now < begun + p.timeout && now <= t < begun + p.interval + p.timeout
    ensures Available(Next(p, After(p, Fresh(start), steps), Return(now, Ready)).(clock := t))
  {
    hide Runs, After, AllHarmless, Broken, LastBegin, LeaseEnd;
    assert AllHarmless(p, []) && !Broken(p, []) by { EmptyHarmless(p); }
    assert LastBegin([]).None? && LeaseEnd(p, []).None? by { NothingYet(p); }
    RunTracked(p, [], Fresh(start), steps);
    assert [] + steps == steps;
  }

  /** The reason a step gives when it is the one that fails the supervisor. */
  function Cause(p: Policy, s: State, step: Step): Reason
    requires CanStep(s, step)
  {
    if (step.Begin? || step.Return? || step.Look?) && s.validUntil != 0.0 && step.now >= s.validUntil then Stale
    else if step.Return? && step.now < s.probing.value + p.timeout then
      if step.health.Invalid? then InvalidResult else NotReadyResult
    else if step.Raise? then Exception
    else if step.StopMonitor? then MonitorStopped
    else TimedOut
  }

  /** The first failure names its cause, and no later one replaces it. */
  lemma FirstCauseStays(p: Policy, s: State, step: Step)
    requires p.Valid() && CanStep(s, step) && Next(p, s, step).failed
    ensures Next(p, s, step).reason == if s.failed then s.reason else Some(Cause(p, s, step))
  {
  }

  // ------------------------------------------------------------------- the object

  /** The supervisor object; its methods are the uninterrupted segments of its coroutines. */
  class RuntimeHealthSupervisor {
    const policy: Policy
    var clock: real
    var validUntil: real
    var reason: Option<Reason>
    var failed: bool
    var closed: bool
    var initialized: bool
    var probing: Option<real>

    function Now(): State
      reads this
    {
      State(clock, validUntil, reason, failed, closed, initialized, probing)
    }

    constructor (interval: real, timeout: real, start: real)
      requires interval > 0.0 && timeout > 0.0
      ensures policy == Policy(interval, timeout) && policy.Valid() && Now() == Fresh(start)
    {
      policy := Policy(interval, timeout);
      clock, validUntil, reason := start, 0.0, None;
      failed, closed, initialized, probing := false, false, false, None;
    }

    method Fail(why: Reason)
      modifies this
      ensures Now() == Failing(old(Now()), why)
    {
      if failed || closed { return; }
      validUntil := 0.0;
      reason := Some(why);
      failed := true;
    }

    method ReadAvailable() returns (available: bool)
      modifies this
      ensures Now() == Looked(old(Now()))
      ensures available <==> Available(old(Now()))
    {
      if validUntil != 0.0 && clock >= validUntil { Fail(Stale); }
      available := !closed && !failed && validUntil != 0.0;
    }

    method Observe(now: real) returns (available: bool)
      requires CanStep(Now(), Look(now))
      modifies this
      ensures Now() == Next(policy, old(Now()), Look(now))
      ensures available <==> Available(Now())
    {
      clock := now;
      available := ReadAvailable();
    }

    /** A probe takes the lock and either starts or finds the gate shut. */
    method BeginProbe(now: real) returns (started: bool)
      requires CanStep(Now(), Begin(now))
      modifies this
      ensures Now() == Next(policy, old(Now()), Begin(now))
      ensures started <==> Now().probing.Some?
    {
      clock := now;
      if closed || failed { return false; }
      if validUntil != 0.0 {
        var available := ReadAvailable();
        if !available { return false; }
      }
      probing := Some(now);
      return true;
    }

    /** The runtime's answer arrives; a late success cannot clear a latched failure. */
    method EndProbe(now: real, health: Health) returns (available: bool)
      requires CanStep(Now(), Return(now, health))
      modifies this
      ensures Now() == Next(policy, old(Now()), Return(now, health))
      ensures available <==> Available(Now())
    {
      clock := now;
      var started := probing.value;
      probing := None;
      var open := !closed && !failed;
      if open && validUntil != 0.0 { open := ReadAvailable(); }
      if open {
        if now - started >= policy.timeout { Fail(TimedOut); }
        else if health.Invalid? { Fail(InvalidResult); }
        else if health.NotReady? { Fail(NotReadyResult); }
        else { validUntil := started + policy.interval + policy.timeout; }
      }
      available := ReadAvailable();
    }

    /** A probe ends by timeout or by raising. */
    method AbandonProbe(now: real, timedOut: bool) returns (available: bool)
      requires probing.Some? && clock <= now
      modifies this
      ensures Now() == Next(policy, old(Now()), if timedOut then Expire(now) else Raise(now))
      ensures !available
    {
      clock := now;
      probing := None;
      Fail(if timedOut then TimedOut else Exception);
      available := ReadAvailable();
    }

    /** A probe's caller is cancelled: the lock is freed and nothing is judged. */
    method CancelProbe(now: real)
      requires probing.Some? && clock <= now
      modifies this
      ensures Now() == Next(policy, old(Now()), Step.Abandon(now))
    {
      clock := now;
      probing := None;
    }

    /** The budget ran out while waiting for another caller's probe. */
    method WaitedTooLong(now: real) returns (available: bool)
      requires clock <= now
      modifies this
      ensures Now() == Next(policy, old(Now()), WaitExpire(now))
      ensures !available
    {
      clock := now;
      Fail(TimedOut);
      available := ReadAvailable();
    }

    method MonitorChecked(now: real)
      requires clock <= now
      modifies this
      ensures Now() == Next(policy, old(Now()), Checked(now))
    {
      clock := now;
      initialized := true;
    }

    method MonitorEnded(now: real)
      requires clock <= now
      modifies this
      ensures Now() == Next(policy, old(Now()), StopMonitor(now))
    {
      clock := now;
      if !closed { Fail(MonitorStopped); }
      initialized := true;
    }

    method Shut(now: real)
      requires clock <= now
      modifies this
      ensures Now() == Next(policy, old(Now()), Close(now))
    {
      clock := now;
      closed := true;
      validUntil := 0.0;
    }
  }
}
