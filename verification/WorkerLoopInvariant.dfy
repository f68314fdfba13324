/** What every reachable state of the Worker loop satisfies: who holds the control lock,
    which attempt is live, what the log says about it, and where its authority comes from. */
module WorkerLoopInvariant {
  import opened Contracts
  import opened WorkerLoop
  import Lifecycle
  import Supervision

  // ------------------------------------------------------------------- positions

  predicate BeforeWrite(pc: Pc) {
    InRun(pc) || pc.EndLock? || pc.EndBeat?
  }

  predicate AfterWrite(pc: Pc) {
    pc.Settling? || pc.AskLock? || pc.Asking? || pc.Hook? || pc.Join? || pc.Waiter?
  }

  /** The attempt the loop is busy with. */
  function Current(pc: Pc): Option<Attempt> {
    if BeforeWrite(pc) || AfterWrite(pc) then Some(pc.attempt) else None
  }

  /** Points of an attempt at which its executor task has ended. */
  predicate Joined(pc: Pc) {
    pc.Check? || pc.EndLock? || pc.EndBeat? || pc.Settling? || pc.Waiter?
  }

  predicate Leaving(pc: Pc) {
    pc.OfflineLock? || pc.GoingOffline?
  }

  // ------------------------------------------------------------- facts about the log

  predicate IsBeat(n: Note) {
    n.Sent? && n.message.Heartbeat?
  }

  predicate Wrote(n: Note, a: Attempt) {
    n.Sent? && n.message.Settle? && n.message.attempt == a
  }

  predicate NeverWrote(log: seq<Note>, a: Attempt) {
    forall n :: n in log ==> !Wrote(n, a)
  }

  predicate Released(log: seq<Note>) {
    exists n :: n in log && n.Sent? && n.message.SetOffline?
  }

  predicate Enrolled(log: seq<Note>) {
    exists n :: n in log && n.Sent? && n.message.Register?
  }

  /** Entry `k` is an acknowledgement that nothing after it has replaced or revoked. */
  predicate LastAck(log: seq<Note>, k: nat) {
    k < |log| && log[k].Acked? && (forall m :: k < m < |log| ==> !log[m].Acked? && !log[m].ControlLost?)
  }

  /** Control's answer ends the enrolment. */
  predicate Expels(n: Note) {
    n.ControlLost? && n.status in {401, 403, 404}
  }

  /** Control acknowledged the Worker and has not ended its enrolment since. */
  predicate Enlisted(log: seq<Note>) {
    exists k :: 0 <= k < |log| && log[k].Acked? && forall m :: k < m < |log| ==> !Expels(log[m])
  }

  lemma EnlistedNext(log: seq<Note>, n: Note)
    ensures Enlisted(log + [n]) <==> n.Acked? || (Enlisted(log) && !Expels(n))
  {
    var all := log + [n];
    assert all[|log|] == n && forall k :: 0 <= k < |log| ==> all[k] == log[k];
    if k :| 0 <= k < |log| && log[k].Acked? && forall m :: k < m < |log| ==> !Expels(log[m]) {
      if !Expels(n) { assert all[k].Acked? && forall m :: k < m < |all| ==> !Expels(all[m]); }
    }
    if k :| 0 <= k < |all| && all[k].Acked? && forall m :: k < m < |all| ==> !Expels(all[m]) {
      if k < |log| { assert log[k].Acked? && forall m :: k < m < |log| ==> !Expels(log[m]); }
    }
  }

  /** Control's last word grants authority at time `at`, and says ONLINE if asked to. */
  ghost predicate Backed(c: Timing, past: seq<Note>, at: real, online: bool) {
    exists k: nat :: LastAck(past, k) && at < past[k].sentAt + c.interval + c.timeout && (online ==> past[k].state.Online?)
  }

  /** Control's last word still counts at time `at` and is not OFFLINE. */
  ghost predicate Confirmed(c: Timing, past: seq<Note>, at: real) {
    exists k: nat :: LastAck(past, k) && at < past[k].sentAt + c.interval + c.timeout && !past[k].state.Offline?
  }

  /** The Worker means to drain: it was told to, or its supervisor has failed. */
  predicate MeansToDrain(c: Timing, past: seq<Note>, watched: seq<Supervision.Step>) {
    DrainIntent in past || (c.managed && Supervision.Broken(c.policy, watched))
  }

  /** A managed runtime answered READY to a probe that is recent enough at time `at`. */
  ghost predicate ProbedReady(c: Timing, watched: seq<Supervision.Step>, at: real) {
    c.managed ==>
      exists i: nat, k: nat :: Supervision.Probe(c.policy, watched, i, k)
                               && at < watched[i].now + c.policy.interval + c.policy.timeout
  }

  /** The runtime of a managed Worker was probed again, and answered READY, after the Worker
      saw that the executor had raised. */
  predicate Rechecked(c: Timing, past: seq<Note>, watched: seq<Supervision.Step>, a: Attempt) {
    exists n :: n in past && n.Rechecking? && n.attempt == a && ProbedSince(c, watched, n.since)
  }

  /** The verdict written for an attempt is how its executor task ended. */
  predicate TellsTruth(c: Timing, past: seq<Note>, watched: seq<Supervision.Step>, a: Attempt, v: Verdict) {
    || (v == Success && Ended(a, Result) in past)
    || (v == Verdict.Failure(true) && Ended(a, Raised) in past && (c.managed ==> Rechecked(c, past, watched, a)))
    || (v == Verdict.Failure(false) && Ended(a, NotAResult) in past)
  }

  /** Whether note `n` may follow `past`: the rules the Worker's side of the protocol keeps. */
  ghost predicate Justified(c: Timing, past: seq<Note>, watched: seq<Supervision.Step>, n: Note) {
    match n
    case Sent(at, seen, m) =>
      && seen <= |watched| && !Released(past)
      && (match m
          case Register => !Enrolled(past) && (c.managed ==> ProbedSince(c, watched[..seen], 0))
          case Heartbeat(active, state) =>
            && (active.Some? ==> Granted(active.value) in past && Settled(active.value) !in past)
            && state == (if MeansToDrain(c, past, watched[..seen]) && Confirmed(c, past, at) then Some(Draining) else None)
          case Claim => Enlisted(past) && DrainIntent !in past && Backed(c, past, at, true) && ProbedReady(c, watched[..seen], at)
          case Settle(a, v) =>
            && Granted(a) in past && NeverWrote(past, a) && TellsTruth(c, past, watched[..seen], a, v)
            && Backed(c, past, at, false) && ProbedReady(c, watched[..seen], at)
          case Inspect(a) => Granted(a) in past
          case SetOffline => Enlisted(past) && DrainIntent in past && (c.managed ==> OwnedDown in past))
    case Granted(a) => FreshToken(past, a)
    case Started(a) => Granted(a) in past && Started(a) !in past
    case Settled(a) => Granted(a) in past && !NeverWrote(past, a)
    case Ended(a, _) => Started(a) in past
    case Rechecking(a, since) => Ended(a, Raised) in past && since <= |watched|
    case _ => true
  }

  /** Every entry of the log is justified by the entries before it. */
  ghost predicate Sound(c: Timing, log: seq<Note>, watched: seq<Supervision.Step>) {
    forall i :: 0 <= i < |log| ==> Justified(c, log[..i], watched, log[i])
  }

  /** Whatever the log says of an attempt, it says of one that was granted. */
  predicate OnlyGranted(log: seq<Note>) {
    && (forall n :: n in log && n.Sent? && n.message.Settle? ==> Granted(n.message.attempt) in log)
    && (forall n :: n in log && (n.Settled? || n.Started?) ==> Granted(n.attempt) in log)
  }

  // ------------------------------------------------------------------- invariants

  /** What holds of the control authority: entry `k` is where it comes from. */
  predicate LastWord(c: Timing, s: State, k: nat) {
    && LastAck(s.log, k)
    && s.controlState == Some(s.log[k].state)
    && s.validUntil == s.log[k].sentAt + c.interval + c.timeout
  }

  ghost predicate Authority(c: Timing, s: State) {
    s.validUntil != 0.0 ==> exists k: nat :: LastWord(c, s, k)
  }

  ghost predicate Supervised(c: Timing, s: State) {
    && 0.0 <= s.sup.clock <= s.clock
    && (c.managed ==> Supervision.Explained(c.policy, s.watched, s.sup) && Supervision.Tracks(c.policy, s.watched, s.sup))
  }

  /** Until the loop is left, local authority is exactly what Control's last word says. */
  ghost predicate Informed(c: Timing, s: State) {
    && (forall k: nat :: LastAck(s.log, k) ==> LastWord(c, s, k))
    && (c.managed ==> !s.sup.closed)
    && Listed(s)
  }

  /** The Worker counts itself enrolled exactly when the log says so. */
  predicate Listed(s: State) {
    s.registered <==> Enlisted(s.log)
  }

  predicate EndingsNoted(s: State) {
    forall a :: a in s.endings ==> Ended(a, s.endings[a]) in s.log
  }

  /** What holds wherever the loop stands. */
  ghost predicate Core(c: Timing, s: State) {
    && Sound(c, s.log, s.watched) && OnlyGranted(s.log) && EndingsNoted(s)
    && (s.draining <==> DrainIntent in s.log) && (s.stop ==> s.draining)
    && Authority(c, s) && Supervised(c, s)
    && Lifecycle.Truthful(s.owned)
  }

  /** At most one executor task lives, and it is the current attempt's. */
  predicate OneLive(s: State) {
    s.live == multiset{}
    || (Current(s.pc).Some? && !Joined(s.pc) && s.live == multiset{Current(s.pc).value})
  }

  /** The verdict the loop is about to write, once the executor task has ended. */
  predicate Decided(c: Timing, log: seq<Note>, watched: seq<Supervision.Step>, pc: Pc) {
    && (pc.Check? ==> Ended(pc.attempt, Raised) in log && Rechecking(pc.attempt, pc.since) in log)
    && (pc.EndLock? || pc.EndBeat? ==> TellsTruth(c, log, watched, pc.attempt, pc.verdict))
  }

  predicate AttemptKnown(c: Timing, s: State) {
    && (Current(s.pc).Some? ==> Granted(Current(s.pc).value) in s.log && Started(Current(s.pc).value) in s.log)
    && (s.active.Some? ==> Current(s.pc) == s.active && Settled(s.active.value) !in s.log)
    && (BeforeWrite(s.pc) ==> NeverWrote(s.log, s.pc.attempt))
    && (s.pc.Settling? ==> !NeverWrote(s.log, s.pc.attempt))
    && Decided(c, s.log, s.watched, s.pc)
  }

  predicate LeavesClean(c: Timing, s: State) {
    && (InFinal(s.pc) ==> s.stop)
    && (c.managed && Leaving(s.pc) ==> s.owned.released && OwnedDown in s.log)
    && (Released(s.log) ==> s.pc.GoingOffline? || s.pc.Done?)
  }

  predicate BeforeEnrolment(pc: Pc) {
    pc.Boot? || pc.Starting? || pc.Asleep? || pc.RegisterLock?
  }

  /** A managed Worker about to enroll has seen its runtime answer READY. */
  predicate MayEnroll(c: Timing, watched: seq<Supervision.Step>, pc: Pc) {
    pc.RegisterLock? && c.managed ==> ProbedSince(c, watched, 0)
  }

  ghost predicate Inv(c: Timing, s: State) {
    && Core(c, s) && OneLive(s) && AttemptKnown(c, s) && LeavesClean(c, s)
    && (s.lock.Main? <==> HoldsLock(s.pc))
    && (BeforeEnrolment(s.pc) ==> !Enrolled(s.log)) && MayEnroll(c, s.watched, s.pc)
    && (if InFinal(s.pc) then !s.pc.Done? ==> Listed(s) else Informed(c, s))
  }

  /** Between attempts, with the lock not ours. */
  ghost predicate Between(c: Timing, s: State) {
    Core(c, s) && Informed(c, s) && s.live == multiset{} && s.active.None? && !Released(s.log)
  }

  /** Within attempt `a`. */
  ghost predicate Within(c: Timing, s: State, a: Attempt) {
    && Core(c, s) && Informed(c, s) && !Released(s.log)
    && (s.live == multiset{} || s.live == multiset{a})
    && Granted(a) in s.log && Started(a) in s.log
    && (s.active.Some? ==> s.active.value == a && Settled(a) !in s.log)
  }

  // ------------------------------------------------------------ what time cannot undo

  lemma ProbeLater(c: Timing, watched: seq<Supervision.Step>, later: seq<Supervision.Step>, since: nat)
    requires ProbedSince(c, watched, since) && watched <= later
    ensures ProbedSince(c, later, since)
  {
    var i, k :| since <= i < k < |watched| && Supervision.Probe(c.policy, watched, i, k);
    assert forall m :: 0 <= m < |watched| ==> later[m] == watched[m];
    assert Supervision.Probe(c.policy, later, i, k);
  }

  lemma DecidedLater(c: Timing, log: seq<Note>, watched: seq<Supervision.Step>, log': seq<Note>, watched': seq<Supervision.Step>, pc: Pc)
    requires Decided(c, log, watched, pc) && watched <= watched' && (forall n :: n in log ==> n in log')
    ensures Decided(c, log', watched', pc)
  {
    hide ProbedSince;
    if (pc.EndLock? || pc.EndBeat?) && c.managed && Rechecked(c, log, watched, pc.attempt) {
      var n :| n in log && n.Rechecking? && n.attempt == pc.attempt && ProbedSince(c, watched, n.since);
      ProbeLater(c, watched, watched', n.since);
    }
  }

  lemma TruthLater(c: Timing, log: seq<Note>, watched: seq<Supervision.Step>, watched': seq<Supervision.Step>, a: Attempt, v: Verdict)
    requires TellsTruth(c, log, watched, a, v) && watched <= watched'
    ensures TellsTruth(c, log, watched', a, v)
  {
    DecidedLater(c, log, watched, log, watched', EndLock(a, v));
  }

  // ------------------------------------------------------------- primitives keep Core

  lemma SoundNoted(c: Timing, log: seq<Note>, watched: seq<Supervision.Step>, n: Note)
    requires Sound(c, log, watched) && Justified(c, log, watched, n)
    ensures Sound(c, log + [n], watched)
  {
    hide Justified;
    var all := log + [n];
    forall i | 0 <= i < |all| ensures Justified(c, all[..i], watched, all[i]) {
      if i < |log| { assert all[..i] == log[..i]; } else { assert all[..i] == log; }
    }
  }

  lemma JustifiedWatched(c: Timing, past: seq<Note>, watched: seq<Supervision.Step>, w: Supervision.Step, n: Note)
    requires Justified(c, past, watched, n)
    ensures Justified(c, past, watched + [w], n)
  {
    if n.Sent? { assert (watched + [w])[..n.seen] == watched[..n.seen]; }
  }

  lemma SoundWatched(c: Timing, log: seq<Note>, watched: seq<Supervision.Step>, w: Supervision.Step)
    requires Sound(c, log, watched)
    ensures Sound(c, log, watched + [w])
  {
    hide Justified;
    forall i | 0 <= i < |log| ensures Justified(c, log[..i], watched + [w], log[i]) {
      JustifiedWatched(c, log[..i], watched, w, log[i]);
    }
  }

  /** `t` differs from `s` in nothing `Authority` reads. */
  lemma AuthorityFramed(c: Timing, s: State, t: State)
    requires Authority(c, s) && t.log == s.log && t.controlState == s.controlState && t.validUntil == s.validUntil
    ensures Authority(c, t)
  {
    if s.validUntil != 0.0 {
      var k: nat :| LastWord(c, s, k);
      assert LastWord(c, t, k);
    }
  }

  lemma AuthorityNoted(c: Timing, s: State, n: Note)
    requires Authority(c, s) && !n.Acked? && !n.ControlLost?
    ensures Authority(c, Noted(s, n))
  {
    if s.validUntil != 0.0 {
      var k: nat :| LastWord(c, s, k);
      assert LastWord(c, Noted(s, n), k);
    }
  }

  lemma ListedNoted(s: State, n: Note)
    requires Listed(s) && !n.Acked? && !n.ControlLost?
    ensures Listed(Noted(s, n))
  {
    EnlistedNext(s.log, n);
  }

  lemma ListedBeaten(c: Timing, s: State, sentAt: real, reply: Reply)
    requires Listed(s)
    ensures Listed(Beaten(c, s, sentAt, reply)) && Listed(Lost(c, s, Code(reply)))
  {
    EnlistedNext(s.log, ControlLost(Code(reply)));
    if reply.Ack? { EnlistedNext(s.log, Acked(sentAt, reply.state)); }
    hide Enlisted;
  }

  lemma InformedNoted(c: Timing, s: State, n: Note)
    requires Informed(c, s) && !n.Acked? && !n.ControlLost?
    ensures Informed(c, Noted(s, n))
  {
    ListedNoted(s, n);
    hide Enlisted;
    var t := Noted(s, n);
    assert forall k :: 0 <= k < |s.log| ==> t.log[k] == s.log[k];
    forall k: nat | LastAck(t.log, k) ensures LastWord(c, t, k) {
      assert k < |s.log| && LastAck(s.log, k);
    }
  }

  /** `t` differs from `s` in nothing `Informed` reads. */
  lemma InformedFramed(c: Timing, s: State, t: State)
    requires Informed(c, s) && t.log == s.log && t.controlState == s.controlState && t.validUntil == s.validUntil
    requires t.sup.closed == s.sup.closed && t.registered == s.registered
    ensures Informed(c, t)
  {
    hide Enlisted;
    forall k: nat | LastAck(t.log, k) ensures LastWord(c, t, k) { assert LastWord(c, s, k); }
  }

  /** A justified note that says nothing about authority or drain keeps `Core`. */
  lemma NotedKeepsCore(c: Timing, s: State, n: Note)
    requires Core(c, s) && Justified(c, s.log, s.watched, n)
    requires !n.Acked? && !n.ControlLost? && !n.DrainIntent?
    ensures Core(c, Noted(s, n)) && (Informed(c, s) ==> Informed(c, Noted(s, n)))
    ensures !Released(s.log) && !(n.Sent? && n.message.SetOffline?) ==> !Released(Noted(s, n).log)
  {
    hide Sound, Authority, Supervised, Informed, Enlisted;
    if Informed(c, s) { InformedNoted(c, s, n); }
    SoundNoted(c, s.log, s.watched, n);
    AuthorityNoted(c, s, n);
    SupervisedFramed(c, s, Noted(s, n));
  }

  lemma SupervisedFramed(c: Timing, s: State, t: State)
    requires Supervised(c, s) && t.sup == s.sup && t.watched == s.watched && s.clock <= t.clock
    ensures Supervised(c, t)
  {
  }

  lemma DrainKeepsCore(c: Timing, s: State, stop: bool)
    requires Core(c, s)
    ensures Core(c, Noted(s, DrainIntent).(draining := true, stop := stop))
    ensures Informed(c, s) ==> Informed(c, Noted(s, DrainIntent).(draining := true, stop := stop))
    ensures !Released(s.log) ==> !Released(Noted(s, DrainIntent).log)
  {
    hide Sound, Authority, Supervised, Informed;
    if Informed(c, s) {
      InformedNoted(c, s, DrainIntent);
      InformedFramed(c, Noted(s, DrainIntent), Noted(s, DrainIntent).(draining := true, stop := stop));
    }
    var t := Noted(s, DrainIntent).(draining := true, stop := stop);
    SoundNoted(c, s.log, s.watched, DrainIntent);
    AuthorityNoted(c, s, DrainIntent);
    AuthorityFramed(c, Noted(s, DrainIntent), t);
    SupervisedFramed(c, s, t);
  }

  lemma LostKeepsCore(c: Timing, s: State, status: nat)
    requires Core(c, s)
    ensures Core(c, Lost(c, s, status)) && (Informed(c, s) ==> Informed(c, Lost(c, s, status)))
    ensures !Released(s.log) ==> !Released(Lost(c, s, status).log)
  {
    EnlistedNext(s.log, ControlLost(status));
    hide Sound, Supervised, Enlisted;
    SoundNoted(c, s.log, s.watched, ControlLost(status));
    assert Lost(c, s, status).log[|s.log|] == ControlLost(status);
    SupervisedFramed(c, s, Lost(c, s, status));
  }

  lemma AcknowledgedKeepsCore(c: Timing, s: State, sentAt: real, state: WorkerState)
    requires Core(c, s)
    ensures Core(c, Acknowledged(c, s, sentAt, state)) && (Informed(c, s) ==> Informed(c, Acknowledged(c, s, sentAt, state)))
    ensures !Released(s.log) ==> !Released(Acknowledged(c, s, sentAt, state).log)
  {
    EnlistedNext(s.log, Acked(sentAt, state));
    hide Sound, Supervised, Enlisted;
    var t := Acknowledged(c, s, sentAt, state);
    SoundNoted(c, s.log, s.watched, Acked(sentAt, state));
    SupervisedFramed(c, s, t);
    assert LastWord(c, t, |s.log|);
    assert t.log[|s.log|] == Acked(sentAt, state);
  }

  lemma BeatenKeepsCore(c: Timing, s: State, sentAt: real, reply: Reply)
    requires Core(c, s)
    ensures Core(c, Beaten(c, s, sentAt, reply)) && (Informed(c, s) ==> Informed(c, Beaten(c, s, sentAt, reply)))
    ensures !Released(s.log) ==> !Released(Beaten(c, s, sentAt, reply).log)
    ensures forall a :: NeverWrote(s.log, a) ==> NeverWrote(Beaten(c, s, sentAt, reply).log, a)
    ensures forall n :: n in s.log ==> n in Beaten(c, s, sentAt, reply).log
    ensures forall a :: Settled(a) !in s.log ==> Settled(a) !in Beaten(c, s, sentAt, reply).log
  {
    hide Core, Informed;
    if reply.Ack? {
      var t := Acknowledged(c, s, sentAt, reply.state);
      AcknowledgedKeepsCore(c, s, sentAt, reply.state);
      CoreFramed(c, t, Beaten(c, s, sentAt, reply));
    } else {
      LostKeepsCore(c, s, Code(reply));
    }
  }

  lemma WatchKeepsCore(c: Timing, s: State, w: Supervision.Step)
    requires c.Valid() && c.managed && Core(c, s) && Supervision.CanStep(s.sup, w) && s.clock <= w.now
    ensures var t := s.(clock := w.now, sup := Supervision.Next(c.policy, s.sup, w), watched := s.watched + [w]);
            Core(c, t) && (Informed(c, s) && !w.Close? ==> Informed(c, t))
  {
    hide Sound, Authority, Informed, Supervision.Explained, Supervision.Tracks, Supervision.CanStep;
    var t := s.(clock := w.now, sup := Supervision.Next(c.policy, s.sup, w), watched := s.watched + [w]);
    SoundWatched(c, s.log, s.watched, w);
    AuthorityFramed(c, s, t);
    Supervision.ExplainedOneStep(c.policy, s.watched, s.sup, w);
    Supervision.TracksOneStep(c.policy, s.watched, s.sup, w);
    SupervisorClock(c.policy, s.sup, w);
    if Informed(c, s) && !w.Close? { InformedFramed(c, s, t); }
  }

  lemma SupervisorClock(p: Supervision.Policy, s: Supervision.State, w: Supervision.Step)
    requires Supervision.CanStep(s, w)
    ensures Supervision.Next(p, s, w).clock == w.now && s.clock <= w.now
    ensures !w.Close? ==> Supervision.Next(p, s, w).closed == s.closed
  {
  }

  lemma LookedKeepsCore(c: Timing, s: State)
    requires c.Valid() && Core(c, s)
    ensures Core(c, Looked(c, s)) && (Informed(c, s) ==> Informed(c, Looked(c, s)))
  {
    if c.managed { WatchKeepsCore(c, s, Supervision.Look(s.clock)); }
  }

  /** `t` differs from `s` in nothing `Core` reads. */
  lemma CoreFramed(c: Timing, s: State, t: State)
    requires Core(c, s)
    requires t.log == s.log && t.controlState == s.controlState && t.validUntil == s.validUntil
    requires t.draining == s.draining && t.stop == s.stop && t.owned == s.owned
    requires t.clock == s.clock && t.sup == s.sup && t.watched == s.watched && t.endings == s.endings
    ensures Core(c, t) && (Informed(c, s) && t.registered == s.registered ==> Informed(c, t))
  {
    hide Informed;
    AuthorityFramed(c, s, t);
    if Informed(c, s) && t.registered == s.registered { InformedFramed(c, s, t); }
  }

  lemma LaterKeepsInv(c: Timing, s: State, now: real)
    requires Inv(c, s) && s.clock <= now
    ensures Inv(c, s.(clock := now))
  {
    hide Sound, Informed;
    if Informed(c, s) { InformedFramed(c, s, s.(clock := now)); }
    AuthorityFramed(c, s, s.(clock := now));
    SupervisedFramed(c, s, s.(clock := now));
  }

  // ---------------------------------------------------------------- justifications

  /** A reading that finds the runtime available leaves the probe that made it so. */
  lemma AvailableIsProbed(c: Timing, s: State)
    requires c.Valid() && Core(c, s) && RuntimeOk(c, s)
    ensures var t := Looked(c, s); ProbedReady(c, t.watched[..|t.watched|], s.clock)
  {
    hide Sound, Authority;
    var t := Looked(c, s);
    LookedKeepsCore(c, s);
    assert t.watched[..|t.watched|] == t.watched;
    if c.managed {
      assert t.sup.validUntil != 0.0 && s.clock < t.sup.validUntil;
      var i: nat, k: nat :| Supervision.Probe(c.policy, t.watched, i, k)
                            && t.sup.validUntil == t.watched[i].now + c.policy.interval + c.policy.timeout;
    }
  }

  lemma AuthorityIsBacked(c: Timing, s: State)
    requires Core(c, s) && s.clock < s.validUntil
    ensures Backed(c, s.log, s.clock, s.controlState == Some(Online))
  {
    hide Sound, Supervision.Explained;
    var k: nat :| LastWord(c, s, k);
  }

  /** What a heartbeat asks for follows from the notes: DRAINING when the Worker means to
      drain and Control's last word allows it, and nothing otherwise. */
  lemma BeatAsksFor(c: Timing, s: State)
    requires Core(c, s) && Informed(c, s)
    ensures Promotion(c, s) == if MeansToDrain(c, s.log, s.watched[..|s.watched|]) && Confirmed(c, s.log, s.clock)
                               then Some(Draining) else None
  {
    hide Sound, Supervision.Explained, Supervision.Broken;
    assert s.watched[..|s.watched|] == s.watched;
    if s.clock < s.validUntil {
      var k: nat :| LastWord(c, s, k);
    }
  }
}
