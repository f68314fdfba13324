/** What the Worker's side of the protocol guarantees, over every interleaving of the
    loop with drain requests, signals, lost and late replies, probe results, executor
    endings and cancellation. */
module WorkerLoopSafety {
  import opened Contracts
  import opened WorkerLoop
  import opened WorkerLoopInvariant
  import opened WorkerLoopSteps
  import Lifecycle
  import Supervision

  lemma RunIsSound(c: Timing, start: State, steps: seq<Step>)
    requires c.Valid() && Initial(start) && Runs(c, start, steps)
    ensures Inv(c, After(c, start, steps))
  {
    InitialInv(c, start);
    RunsKeepInv(c, start, steps);
  }

  /** A claim is sent only while ready: before any drain or stop intent, under an ONLINE
      acknowledgement that is still the last word from Control and has not lapsed, and,
      for a managed Worker, with a READY probe no older than an interval and a budget. */
  lemma ClaimsOnlyWhileReady(c: Timing, start: State, steps: seq<Step>, i: nat)
    returns (ack: nat)
    requires c.Valid() && Initial(start) && Runs(c, start, steps)
    requires var log := After(c, start, steps).log; i < |log| && log[i].Sent? && log[i].message.Claim?
    ensures var log := After(c, start, steps).log;
            && DrainIntent !in log[..i] && Enlisted(log[..i])
            && ack < i && log[ack].Acked? && log[ack].state.Online?
            && log[i].at < log[ack].sentAt + c.interval + c.timeout
            && (forall m :: ack < m < i ==> !log[m].Acked? && !log[m].ControlLost?)
            && log[i].seen <= |After(c, start, steps).watched|
            && ProbedReady(c, After(c, start, steps).watched[..log[i].seen], log[i].at)
  {
    RunIsSound(c, start, steps);
    var s := After(c, start, steps);
    var past := s.log[..i];
    assert Justified(c, past, s.watched, s.log[i]);
    ack :| LastAck(past, ack) && s.log[i].at < past[ack].sentAt + c.interval + c.timeout && past[ack].state.Online?;
    assert forall m :: ack < m < i ==> past[m] == s.log[m];
  }

  /** At most one executor task is live, and no attempt is ever started twice. */
  lemma OneExecution(c: Timing, start: State, steps: seq<Step>)
    requires c.Valid() && Initial(start) && Runs(c, start, steps)
    ensures |After(c, start, steps).live| <= 1
    ensures var log := After(c, start, steps).log;
            forall i, j :: 0 <= i < j < |log| && log[i].Started? && log[j].Started? ==> log[i].attempt != log[j].attempt
  {
    RunIsSound(c, start, steps);
    var s := After(c, start, steps);
    forall i, j | 0 <= i < j < |s.log| && s.log[i].Started? && s.log[j].Started?
      ensures s.log[i].attempt != s.log[j].attempt
    {
      assert Justified(c, s.log[..j], s.watched, s.log[j]);
      assert s.log[..j][i] == s.log[i];
    }
  }

  /** Each attempt writes at most one terminal result, after it was granted and its task
      ended, with the verdict of that ending, under authority that has not lapsed. */
  lemma OneTerminalWrite(c: Timing, start: State, steps: seq<Step>, i: nat, a: Attempt)
    requires c.Valid() && Initial(start) && Runs(c, start, steps)
    requires var log := After(c, start, steps).log; i < |log| && Wrote(log[i], a)
    ensures var log := After(c, start, steps).log;
            && (forall j :: 0 <= j < |log| && j != i ==> !Wrote(log[j], a))
            && Granted(a) in log[..i] && log[i].seen <= |After(c, start, steps).watched|
            && TellsTruth(c, log[..i], After(c, start, steps).watched[..log[i].seen], a, log[i].message.verdict)
            && Backed(c, log[..i], log[i].at, false)
  {
    RunIsSound(c, start, steps);
    var s := After(c, start, steps);
    assert Justified(c, s.log[..i], s.watched, s.log[i]);
    forall j | 0 <= j < |s.log| && j != i ensures !Wrote(s.log[j], a) {
      if j < i {
        assert s.log[..i][j] == s.log[j];
      } else {
        assert Justified(c, s.log[..j], s.watched, s.log[j]);
        assert s.log[..j][i] == s.log[i] && s.log[i] in s.log[..j];
      }
    }
  }

  /** What heartbeats ask Control for: never ONLINE or OFFLINE, and DRAINING exactly when the
      Worker means to drain, because it was told to or its supervisor has failed by then, and
      Control's last word is an acknowledgement that has not lapsed and is not OFFLINE. */
  lemma HeartbeatsAsk(c: Timing, start: State, steps: seq<Step>, i: nat)
    requires c.Valid() && Initial(start) && Runs(c, start, steps)
    requires var log := After(c, start, steps).log; i < |log| && log[i].Sent? && log[i].message.Heartbeat?
    ensures var s := After(c, start, steps); var n, past := s.log[i], s.log[..i];
            && (n.message.state == None || n.message.state == Some(Draining))
            && n.seen <= |s.watched|
            && (n.message.state == Some(Draining) <==>
                  && (DrainIntent in past || (c.managed && Supervision.Broken(c.policy, s.watched[..n.seen])))
                  && exists k: nat :: LastAck(past, k) && n.at < past[k].sentAt + c.interval + c.timeout && !past[k].state.Offline?)
  {
    RunIsSound(c, start, steps);
    hide Runs, After, Supervision.Broken, LastAck;
    var s := After(c, start, steps);
    assert Justified(c, s.log[..i], s.watched, s.log[i]);
  }

  /** A managed Worker reports a raised execution as a failure only after its runtime was probed
      anew: the probe started after the Worker saw the execution raise, and answered READY. */
  lemma FailuresAreRechecked(c: Timing, start: State, steps: seq<Step>, i: nat, a: Attempt)
    returns (j: nat, b: nat, k: nat)
    requires c.Valid() && Initial(start) && Runs(c, start, steps) && c.managed
    requires var log := After(c, start, steps).log;
             i < |log| && Wrote(log[i], a) && log[i].message.verdict == Verdict.Failure(true)
    ensures var s := After(c, start, steps);
            && j < i && s.log[j].Rechecking? && s.log[j].attempt == a && Ended(a, Raised) in s.log[..j]
            && s.log[j].since <= b && s.log[i].seen <= |s.watched| && k < s.log[i].seen
            && Supervision.Probe(c.policy, s.watched, b, k)
  {
    RunIsSound(c, start, steps);
    hide Runs, After, Initial, Inv, Supervision.Probe;
    j, b, k := FailureRechecked(c, After(c, start, steps), i, a);
  }

  lemma FailureRechecked(c: Timing, s: State, i: nat, a: Attempt) returns (j: nat, b: nat, k: nat)
    requires Inv(c, s) && c.managed && i < |s.log| && Wrote(s.log[i], a) && s.log[i].message.verdict == Verdict.Failure(true)
    ensures j < i && s.log[j].Rechecking? && s.log[j].attempt == a && Ended(a, Raised) in s.log[..j]
            && s.log[j].since <= b && s.log[i].seen <= |s.watched| && k < s.log[i].seen
            && Supervision.Probe(c.policy, s.watched, b, k)
  {
    hide Inv, ProbedReady, Backed, TellsTruth, NeverWrote, Released, Enrolled, Enlisted;
    JustifiedAt(c, s, i);
    j := FindsRecheck(c, s.log, s.watched, i, a);
    JustifiedAt(c, s, j);
    hide Justified, Supervision.Probe;
    var seen := s.watched[..s.log[i].seen];
    b, k :| s.log[j].since <= b < k < |seen| && Supervision.Probe(c.policy, seen, b, k);
    ProbeInAll(c.policy, s.watched, s.log[i].seen, b, k);
  }

  lemma JustifiedAt(c: Timing, s: State, i: nat)
    requires Inv(c, s) && i < |s.log|
    ensures Justified(c, s.log[..i], s.watched, s.log[i])
  {
    assert Sound(c, s.log, s.watched);
    hide Inv;
  }

  lemma FindsRecheck(c: Timing, log: seq<Note>, watched: seq<Supervision.Step>, i: nat, a: Attempt) returns (j: nat)
    requires i < |log| && Justified(c, log[..i], watched, log[i]) && c.managed
    requires Wrote(log[i], a) && log[i].message.verdict == Verdict.Failure(true)
    ensures j < i && log[j].Rechecking? && log[j].attempt == a && log[i].seen <= |watched|
            && ProbedSince(c, watched[..log[i].seen], log[j].since)
  {
    hide ProbedReady, Backed, ProbedSince;
    var n :| n in log[..i] && n.Rechecking? && n.attempt == a && ProbedSince(c, watched[..log[i].seen], n.since);
    j :| 0 <= j < i && log[j] == n;
  }

  lemma ProbeInAll(p: Supervision.Policy, watched: seq<Supervision.Step>, seen: nat, b: nat, k: nat)
    requires seen <= |watched| && Supervision.Probe(p, watched[..seen], b, k)
    ensures Supervision.Probe(p, watched, b, k)
  {
    assert forall m :: 0 <= m < seen ==> watched[..seen][m] == watched[m];
  }

  /** No heartbeat presents the token of an attempt whose terminal write was acknowledged. */
  lemma NoBeatAfterSettled(c: Timing, start: State, steps: seq<Step>, i: nat, j: nat, a: Attempt)
    requires c.Valid() && Initial(start) && Runs(c, start, steps)
    requires i < j < |After(c, start, steps).log| && After(c, start, steps).log[i] == Settled(a)
    ensures var n := After(c, start, steps).log[j];
            n.Sent? && n.message.Heartbeat? ==> n.message.active != Some(a)
  {
    RunIsSound(c, start, steps);
    var s := After(c, start, steps);
    assert Justified(c, s.log[..j], s.watched, s.log[j]);
    assert s.log[..j][i] == s.log[i];
  }

  /** The OFFLINE release is the last message of a run.  A managed Worker sends it only
      after its owned runtime was stopped and released, and no execution is left by then. */
  lemma ReleaseComesLast(c: Timing, start: State, steps: seq<Step>, i: nat)
    requires c.Valid() && Initial(start) && Runs(c, start, steps)
    requires var log := After(c, start, steps).log; i < |log| && log[i].Sent? && log[i].message.SetOffline?
    ensures var log := After(c, start, steps).log;
            && (forall j :: i < j < |log| ==> !log[j].Sent?)
            && Enlisted(log[..i]) && (c.managed ==> OwnedDown in log[..i])
    ensures After(c, start, steps).live == multiset{}
  {
    RunIsSound(c, start, steps);
    var s := After(c, start, steps);
    assert Justified(c, s.log[..i], s.watched, s.log[i]);
    assert s.log[i] in s.log && Released(s.log);
    forall j | i < j < |s.log| ensures !s.log[j].Sent? {
      assert Justified(c, s.log[..j], s.watched, s.log[j]);
      assert s.log[..j][i] == s.log[i] && s.log[i] in s.log[..j];
    }
  }

  /** Whenever the owned runtime was reported down, it holds no process and no resource. */
  lemma LeavingOwnsNothing(c: Timing, start: State, steps: seq<Step>)
    requires c.Valid() && Initial(start) && Runs(c, start, steps)
    requires c.managed && Leaving(After(c, start, steps).pc)
    ensures var owned := After(c, start, steps).owned; !owned.processes && !owned.reserved
  {
    RunIsSound(c, start, steps);
  }

  /** The Worker enrolls once: acknowledged again or not, it never registers a second time, and a
      managed Worker registers only after its runtime answered a probe READY. */
  lemma EnrollsOnce(c: Timing, start: State, steps: seq<Step>, i: nat)
    requires c.Valid() && Initial(start) && Runs(c, start, steps)
    requires var log := After(c, start, steps).log; i < |log| && log[i].Sent? && log[i].message.Register?
    ensures var s := After(c, start, steps);
            && (forall j :: 0 <= j < |s.log| && j != i && s.log[j].Sent? ==> !s.log[j].message.Register?)
            && s.log[i].seen <= |s.watched| && (c.managed ==> ProbedSince(c, s.watched[..s.log[i].seen], 0))
  {
    RunIsSound(c, start, steps);
    hide Runs, After, ProbedSince;
    var s := After(c, start, steps);
    assert Justified(c, s.log[..i], s.watched, s.log[i]);
    forall j | 0 <= j < |s.log| && j != i && s.log[j].Sent? ensures !s.log[j].message.Register? {
      if j < i {
        assert s.log[..i][j] == s.log[j] && s.log[j] in s.log[..i];
      } else {
        assert Justified(c, s.log[..j], s.watched, s.log[j]);
        assert s.log[..j][i] == s.log[i] && s.log[i] in s.log[..j];
      }
    }
  }

  // --------------------------------------------------- an unacknowledged write is weaker

  lemma {:induction false} RunsSnoc(c: Timing, s: State, steps: seq<Step>, step: Step)
    requires Runs(c, s, steps) && CanStep(c, After(c, s, steps), step)
    ensures Runs(c, s, steps + [step])
    ensures After(c, s, steps + [step]) == Next(c, After(c, s, steps), step)
    decreases |steps|
  {
    hide CanStep, Next;
    var all := steps + [step];
    if steps == [] {
      assert all[0] == step && all[1..] == [];
      assert After(c, Next(c, s, step), []) == Next(c, s, step);
    } else {
      assert all[0] == steps[0] && all[1..] == steps[1..] + [step];
      RunsSnoc(c, Next(c, s, steps[0]), steps[1..], step);
    }
  }

  const PACE := Timing(true, 5.0, 10.0, Supervision.Policy(1.0, 5.0))
  const FIRST := Attempt("job", "token")
  const REST := State(0.0, false, false, false, None, 0.0, 0.0, None, Free, Boot, multiset{}, map[],
                      Supervision.Fresh(0.0), [], Lifecycle.Owned(false, true, true), [])

  const HEALTHY := Supervision.State(0.0, 6.0, None, false, false, true, None)

  /** One more step of the run that starts at `REST`. */
  lemma Take(steps: seq<Step>, s: State, step: Step) returns (more: seq<Step>, t: State)
    requires Runs(PACE, REST, steps) && s == After(PACE, REST, steps) && CanStep(PACE, s, step)
    ensures Runs(PACE, REST, more) && t == After(PACE, REST, more) && t == Next(PACE, s, step)
  {
    RunsSnoc(PACE, REST, steps, step);
    more, t := steps + [step], Next(PACE, s, step);
  }

  /** The state at a glance: everything but the two histories. */
  function Glance(s: State): State {
    s.(log := [], watched := [])
  }

  lemma StartsUp() returns (steps: seq<Step>, s: State)
    ensures Runs(PACE, REST, steps) && s == After(PACE, REST, steps)
    ensures Glance(s) == REST.(pc := RegisterLock, sup := HEALTHY) && s.log == []
  {
    assert Runs(PACE, REST, []) && After(PACE, REST, []) == REST;
    steps, s := Take([], REST, Watch(Supervision.Begin(0.0)));
    steps, s := Take(steps, s, Watch(Supervision.Return(0.0, Supervision.Ready)));
    steps, s := Take(steps, s, Watch(Supervision.Checked(0.0)));
    assert s.sup == HEALTHY;
    steps, s := Take(steps, s, Resume(0.0, Go));
    steps, s := Take(steps, s, Resume(0.0, Go));
  }

  const ONLINE := REST.(sup := HEALTHY, registered := true, controlState := Some(WorkerState.Online),
                        validUntil := 15.0, nextBeat := 5.0)

  lemma Registers(s: State)
    requires Glance(s) == REST.(pc := RegisterLock, sup := HEALTHY) && s.log == []
    ensures CanStep(PACE, s, Resume(0.0, Go))
    ensures var t := Next(PACE, s, Resume(0.0, Go));
            Glance(t) == REST.(pc := Registering(0.0), sup := HEALTHY, lock := Main)
            && forall n :: n in t.log ==> !n.Granted?
  {
  }

  lemma IsAcknowledged(s: State)
    requires Glance(s) == REST.(pc := Registering(0.0), sup := HEALTHY, lock := Main)
    requires forall n :: n in s.log ==> !n.Granted?
    ensures CanStep(PACE, s, Resume(0.0, Answer(Ack(WorkerState.Online))))
    ensures var t := Next(PACE, s, Resume(0.0, Answer(Ack(WorkerState.Online))));
            Glance(t) == ONLINE.(pc := LoopLock) && forall n :: n in t.log ==> !n.Granted?
  {
  }

  lemma LooksForWork(s: State)
    requires Glance(s) == ONLINE.(pc := LoopLock)
    ensures CanStep(PACE, s, Resume(0.0, Go))
    ensures Glance(Next(PACE, s, Resume(0.0, Go))) == ONLINE.(pc := ClaimLock)
    ensures Next(PACE, s, Resume(0.0, Go)).log == s.log
  {
  }

  lemma Claims(s: State)
    requires Glance(s) == ONLINE.(pc := ClaimLock)
    requires forall n :: n in s.log ==> !n.Granted?
    ensures CanStep(PACE, s, Resume(0.0, Go))
    ensures var t := Next(PACE, s, Resume(0.0, Go));
            Glance(t) == ONLINE.(pc := Claiming, lock := Main) && forall n :: n in t.log ==> !n.Granted?
  {
  }

  lemma StartsTheJob(s: State)
    requires Glance(s) == ONLINE.(pc := Claiming, lock := Main)
    requires forall n :: n in s.log ==> !n.Granted?
    ensures CanStep(PACE, s, Resume(0.0, Answer(Grant(FIRST))))
    ensures Glance(Next(PACE, s, Resume(0.0, Answer(Grant(FIRST)))))
            == ONLINE.(pc := RunLock(FIRST), active := Some(FIRST), live := multiset{FIRST})
  {
  }

  lemma WaitsForTheJob(s: State)
    requires Glance(s) == ONLINE.(pc := RunLock(FIRST), active := Some(FIRST), live := multiset{FIRST})
    ensures CanStep(PACE, s, Resume(0.0, Go))
    ensures Glance(Next(PACE, s, Resume(0.0, Go)))
            == ONLINE.(pc := RunWait(FIRST), active := Some(FIRST), live := multiset{FIRST})
  {
  }

  lemma JobEnds(s: State)
    requires Glance(s) == ONLINE.(pc := RunWait(FIRST), active := Some(FIRST), live := multiset{FIRST})
    ensures CanStep(PACE, s, Finish(0.0, FIRST, Result))
    ensures Glance(Next(PACE, s, Finish(0.0, FIRST, Result)))
            == ONLINE.(pc := RunWait(FIRST), active := Some(FIRST), endings := map[FIRST := Result])
  {
  }

  lemma ReadsTheResult(s: State)
    requires Glance(s) == ONLINE.(pc := RunWait(FIRST), active := Some(FIRST), endings := map[FIRST := Result])
    ensures CanStep(PACE, s, Resume(0.0, Go))
    ensures Glance(Next(PACE, s, Resume(0.0, Go)))
            == ONLINE.(pc := EndLock(FIRST, Success), active := Some(FIRST), endings := map[FIRST := Result])
  {
  }

  lemma WritesTheResult(s: State)
    requires Glance(s) == ONLINE.(pc := EndLock(FIRST, Success), active := Some(FIRST), endings := map[FIRST := Result])
    ensures CanStep(PACE, s, Resume(0.0, Go))
    ensures var t := Next(PACE, s, Resume(0.0, Go));
            && Glance(t) == ONLINE.(pc := Settling(FIRST), lock := Main, active := Some(FIRST), endings := map[FIRST := Result])
            && t.log != [] && Wrote(t.log[|t.log| - 1], FIRST)
  {
  }

  lemma LosesTheReply(s: State)
    requires s.pc == Settling(FIRST) && s.active == Some(FIRST) && s.registered && !s.stop && s.clock == 0.0
    requires s.live == multiset{}
    ensures CanStep(PACE, s, Resume(0.0, Answer(Refused(0))))
    ensures var t := Next(PACE, s, Resume(0.0, Answer(Refused(0))));
            && s.log <= t.log && t.pc == Waiter(FIRST, Transport(0)) && t.lock == Free && t.active == Some(FIRST)
            && t.registered && !t.stop && t.clock == 0.0 && t.validUntil == 0.0
  {
  }

  lemma DrainBeats(s: State)
    requires s.lock == Free && s.active == Some(FIRST) && s.registered && !s.stop && s.clock == 0.0 && s.validUntil == 0.0
    ensures CanStep(PACE, s, DrainSignal(0.0))
    ensures var t := Next(PACE, s, DrainSignal(0.0));
            && CanStep(PACE, t, DrainGo(0.0))
            && Next(PACE, t, DrainGo(0.0)).log
               == s.log + [DrainIntent, Sent(0.0, |s.watched|, Heartbeat(Some(FIRST), None))]
  {
  }

  lemma RunsTheJob() returns (steps: seq<Step>, s: State)
    ensures Runs(PACE, REST, steps) && s == After(PACE, REST, steps)
    ensures Glance(s) == ONLINE.(pc := RunWait(FIRST), active := Some(FIRST), endings := map[FIRST := Result])
  {
    hide CanStep, Next, Runs, After;
    steps, s := StartsUp();
    Registers(s);
    steps, s := Take(steps, s, Resume(0.0, Go));
    IsAcknowledged(s);
    steps, s := Take(steps, s, Resume(0.0, Answer(Ack(WorkerState.Online))));
    LooksForWork(s);
    steps, s := Take(steps, s, Resume(0.0, Go));
    Claims(s);
    steps, s := Take(steps, s, Resume(0.0, Go));
    StartsTheJob(s);
    steps, s := Take(steps, s, Resume(0.0, Answer(Grant(FIRST))));
    WaitsForTheJob(s);
    steps, s := Take(steps, s, Resume(0.0, Go));
    JobEnds(s);
    steps, s := Take(steps, s, Finish(0.0, FIRST, Result));
  }

  /** When the reply to the terminal write is lost, Control may have accepted it, and a
      drain heartbeat of a managed Worker can still present the same token. */
  lemma LostReplyAllowsBeat() returns (steps: seq<Step>, i: nat, j: nat)
    ensures Initial(REST) && Runs(PACE, REST, steps)
    ensures i < j < |After(PACE, REST, steps).log|
    ensures var log := After(PACE, REST, steps).log;
            Wrote(log[i], FIRST) && log[j].Sent? && log[j].message == Heartbeat(Some(FIRST), None)
  {
    hide CanStep, Next, Runs, After;
    var s: State;
    steps, s := RunsTheJob();
    ReadsTheResult(s);
    steps, s := Take(steps, s, Resume(0.0, Go));
    WritesTheResult(s);
    steps, s := Take(steps, s, Resume(0.0, Go));
    i := |s.log| - 1;
    LosesTheReply(s);
    steps, s := Take(steps, s, Resume(0.0, Answer(Refused(0))));
    DrainBeats(s);
    j := |s.log| + 1;
    steps, s := Take(steps, s, DrainSignal(0.0));
    steps, s := Take(steps, s, DrainGo(0.0));
  }
}
