/** Every segment of the Worker loop restores the invariant, and so does every step. */
module WorkerLoopSteps {
  import opened Contracts
  import opened WorkerLoop
  import opened WorkerLoopInvariant
  import Lifecycle
  import Supervision

  // ------------------------------------------------------------ between attempts

  lemma CoreFitsClock(c: Timing, s: State)
    requires Core(c, s)
    ensures s.sup.clock <= s.clock
  {
  }

  /** Dropping local authority keeps `Core`. */
  lemma CoreForgets(c: Timing, s: State, t: State)
    requires Core(c, s) && t.validUntil == 0.0
    requires t.log == s.log && t.draining == s.draining && t.stop == s.stop && t.owned == s.owned
    requires t.clock == s.clock && t.sup == s.sup && t.watched == s.watched && t.endings == s.endings
    ensures Core(c, t)
  {
  }

  /** One more note that does not speak of enrolment. */
  lemma ListedAfter(s: State, n: Note, t: State)
    requires Listed(s) && !n.Acked? && !n.ControlLost? && t.log == s.log + [n] && t.registered == s.registered
    ensures Listed(t)
  {
    hide Enlisted;
    ListedNoted(s, n);
  }

  lemma BetweenListed(c: Timing, s: State)
    requires Between(c, s)
    ensures Listed(s)
  {
  }

  lemma FinalRestores(c: Timing, s: State)
    requires c.Valid() && Between(c, s) && !s.lock.Main?
    ensures Inv(c, Final(c, s))
  {
    hide Core, Informed, Listed, Supervision.Available;
    BetweenListed(c, s);
    ListedAfter(s, DrainIntent, Final(c, s));
    DrainKeepsCore(c, s, true);
    var t := Noted(s, DrainIntent).(draining := true, stop := true);
    CoreFitsClock(c, s);
    if c.managed { WatchKeepsCore(c, t, Supervision.Close(s.clock)); }
    CoreForgets(c, if c.managed then t.(sup := Viewed(s).(closed := true, validUntil := 0.0),
                                        watched := s.watched + [Supervision.Close(s.clock)]) else t,
                Final(c, s));
  }

  lemma LoopTopRestores(c: Timing, s: State)
    requires c.Valid() && Between(c, s) && !s.lock.Main?
    ensures Inv(c, LoopTop(c, s))
  {
    hide Core, Informed, Supervision.Looked, Supervision.Available;
    if s.stop { FinalRestores(c, s); } else { CoreFramed(c, s, LoopTop(c, s)); }
  }

  lemma DispatchRestores(c: Timing, s: State, why: Why)
    requires c.Valid() && Between(c, s) && !s.lock.Main?
    ensures Inv(c, Dispatch(c, s, why))
  {
    hide Core, Informed, Supervision.Looked, Supervision.Available, LoopTop, Final;
    match why
    case Finished => LoopTopRestores(c, s);
    case RuntimeLost => CoreFramed(c, s, s.(pc := Poll));
    case Transport(status) =>
      LostKeepsCore(c, s, status);
      CoreFramed(c, Lost(c, s, status), Lost(c, s, status).(pc := Poll));
    case Thrown => FinalRestores(c, s);
  }

  lemma LoopReadyRestores(c: Timing, s: State)
    requires c.Valid() && Between(c, s) && !s.lock.Main?
    ensures Inv(c, LoopReady(c, s))
  {
    hide Core, Informed, Supervision.Looked, Supervision.Available;
    LookedKeepsCore(c, s);
    CoreFramed(c, ReadyLook(c, s), LoopReady(c, s));
  }

  lemma ClaimJustified(c: Timing, s: State)
    requires c.Valid() && Between(c, s) && ReadyNow(c, s)
    ensures var t := ReadyLook(c, s); Justified(c, t.log, t.watched, Sent(t.clock, |t.watched|, Claim))
  {
    AuthorityIsBacked(c, s);
    AvailableIsProbed(c, s);
    assert DrainIntent !in s.log;
    hide Core, Informed, ProbedReady, Backed, Supervision.Looked;
  }

  lemma ClaimIfReadyRestores(c: Timing, s: State)
    requires c.Valid() && Between(c, s)
    ensures Inv(c, ClaimIfReady(c, s))
  {
    hide Core, Informed, Supervision.Looked, Supervision.Available, LoopTop;
    LookedKeepsCore(c, s);
    var t := ReadyLook(c, s);
    if ReadyNow(c, s) {
      ClaimJustified(c, s);
      NotedKeepsCore(c, t, Sent(t.clock, |t.watched|, Claim));
      CoreFramed(c, Send(t, Claim), ClaimIfReady(c, s));
    } else {
      CoreFramed(c, t, t.(lock := Free));
      LoopTopRestores(c, t.(lock := Free));
    }
  }

  // ----------------------------------------------------------- within an attempt

  lemma UnhookedRestores(c: Timing, s: State, a: Attempt, why: Why)
    requires c.Valid() && Within(c, s, a) && s.live == multiset{} && !s.lock.Main?
    ensures Inv(c, Unhooked(c, s, a, why))
  {
    hide Core, Informed, Supervision.Looked, Supervision.Available, Dispatch;
    if c.managed {
      CoreFramed(c, s, s.(pc := Waiter(a, why)));
    } else {
      CoreFramed(c, s, s.(active := None));
      DispatchRestores(c, s.(active := None), why);
    }
  }

  lemma UnwindRestores(c: Timing, s: State, a: Attempt, why: Why)
    requires c.Valid() && Within(c, s, a) && !s.lock.Main?
    ensures Inv(c, Unwind(c, s, a, why))
  {
    hide Core, Informed, Supervision.Looked, Supervision.Available, Unhooked;
    if a in s.live { CoreFramed(c, s, s.(pc := Hook(a, why))); } else { UnhookedRestores(c, s, a, why); }
  }

  lemma SeveredRestores(c: Timing, s: State, a: Attempt, status: nat)
    requires c.Valid() && Within(c, s, a) && !s.lock.Main?
    ensures Inv(c, Severed(c, s, a, status))
  {
    hide Core, Informed, Supervision.Looked, Supervision.Available, Unwind;
    var t := Lost(c, s, status);
    LostKeepsCore(c, s, status);
    assert Granted(a) in t.log;
    if status == 409 { CoreFramed(c, t, t.(pc := AskLock(a))); } else { UnwindRestores(c, t, a, Transport(status)); }
  }

  lemma LookedStaysWithin(c: Timing, s: State, a: Attempt)
    requires c.Valid() && Within(c, s, a)
    ensures Within(c, Looked(c, s), a)
    ensures Looked(c, s).log == s.log && Looked(c, s).live == s.live && Looked(c, s).lock == s.lock
    ensures Looked(c, s).clock == s.clock && Looked(c, s).validUntil == s.validUntil
  {
    hide Core, Informed, Supervision.Looked, Supervision.Available;
    LookedKeepsCore(c, s);
  }

  lemma PlacedWithin(c: Timing, s: State, a: Attempt, pc: Pc, lock: Lock)
    requires Within(c, s, a) && Current(pc) == Some(a) && (lock.Main? <==> HoldsLock(pc))
    requires Joined(pc) ==> s.live == multiset{}
    requires BeforeWrite(pc) ==> NeverWrote(s.log, a)
    requires Decided(c, s.log, s.watched, pc) && (pc.Settling? ==> !NeverWrote(s.log, a))
    ensures Inv(c, s.(pc := pc, lock := lock))
  {
    hide Core, Informed;
    CoreFramed(c, s, s.(pc := pc, lock := lock));
  }

  lemma RunBeatenRestores(c: Timing, s: State, a: Attempt)
    requires c.Valid() && Within(c, s, a) && NeverWrote(s.log, a) && !s.lock.Main?
    ensures Inv(c, RunBeaten(c, s, a))
  {
    hide Looked, Unwind, RuntimeOk, Within, Inv, NeverWrote;
    LookedStaysWithin(c, s, a);
    if RuntimeOk(c, s) { PlacedWithin(c, Looked(c, s), a, RunWait(a), s.lock); }
    else { UnwindRestores(c, Looked(c, s), a, RuntimeLost); }
  }

  lemma EndingNoted(c: Timing, s: State, a: Attempt)
    requires Within(c, s, a)
    ensures a in s.endings ==> Ended(a, s.endings[a]) in s.log
  {
  }

  lemma RecheckNoted(c: Timing, s: State, a: Attempt)
    requires Within(c, s, a) && Ended(a, Raised) in s.log
    ensures var t := Noted(s, Rechecking(a, |s.watched|));
            Within(c, t, a) && Rechecking(a, |s.watched|) in t.log && (NeverWrote(s.log, a) ==> NeverWrote(t.log, a))
            && forall n :: n in s.log ==> n in t.log
  {
    hide Core, Informed;
    NotedKeepsCore(c, s, Rechecking(a, |s.watched|));
  }

  lemma RunEndedRestores(c: Timing, s: State, a: Attempt)
    requires c.Valid() && Within(c, s, a) && NeverWrote(s.log, a) && !s.lock.Main? && s.live == multiset{}
    ensures Inv(c, RunEnded(c, s, a))
  {
    hide Looked, Unwind, RuntimeOk, Within, Inv, NeverWrote, Supervision.Looked, Supervision.Available;
    LookedStaysWithin(c, s, a);
    EndingNoted(c, s, a);
    var t := Looked(c, s);
    if !RuntimeOk(c, s) { UnwindRestores(c, t, a, RuntimeLost); }
    else if a !in s.endings || s.endings[a].Cancelled? { UnwindRestores(c, t, a, Thrown); }
    else if s.endings[a].Raised? && c.managed {
      RecheckNoted(c, t, a);
      PlacedWithin(c, Noted(t, Rechecking(a, |t.watched|)), a, Check(a, |t.watched|), s.lock);
    } else { PlacedWithin(c, t, a, RunEnded(c, s, a).pc, s.lock); }
  }

  lemma RunLoopRestores(c: Timing, s: State, a: Attempt)
    requires c.Valid() && Within(c, s, a) && NeverWrote(s.log, a) && !s.lock.Main?
    ensures Inv(c, RunLoop(c, s, a))
  {
    LookedStaysWithin(c, s, a);
    if a !in s.live {
      hide RunEnded, Looked, Core, RuntimeOk, Inv;
      assert s.live == multiset{};
      RunEndedRestores(c, s, a);
    } else {
      hide Looked, Unwind, RuntimeOk, Within, Inv, NeverWrote;
      if RuntimeOk(c, s) { PlacedWithin(c, Looked(c, s), a, RunLock(a), s.lock); }
      else { UnwindRestores(c, Looked(c, s), a, RuntimeLost); }
    }
  }

  /** A granted attempt is new to the log, so nothing was ever written under its token. */
  lemma GrantIsNew(c: Timing, s: State, a: Attempt)
    requires Between(c, s) && FreshToken(s.log, a)
    ensures var t := Noted(s, Granted(a)).(active := Some(a), lock := Free);
            && Core(c, t) && Informed(c, t) && !Released(t.log) && Granted(a) in t.log && Started(a) !in t.log
            && NeverWrote(t.log, a) && Settled(a) !in t.log
  {
    var t := Noted(s, Granted(a)).(active := Some(a), lock := Free);
    NotedKeepsCore(c, s, Granted(a));
    CoreFramed(c, Noted(s, Granted(a)), t);
    hide Informed;
    assert Granted(a) !in s.log;
    assert NeverWrote(s.log, a) && Settled(a) !in s.log && Started(a) !in s.log by { assert OnlyGranted(s.log); }
  }

  lemma GrantingRestores(c: Timing, s: State, a: Attempt)
    requires c.Valid() && Between(c, s) && FreshToken(s.log, a)
    ensures Inv(c, Granting(c, s, a))
  {
    hide Core, Informed, Supervision.Looked, Supervision.Available, Dispatch, FreshToken;
    var t := Noted(s, Granted(a)).(active := Some(a), lock := Free);
    GrantIsNew(c, s, a);
    LookedKeepsCore(c, t);
    var u := Looked(c, t);
    if RuntimeOk(c, t) {
      NotedKeepsCore(c, u, Started(a));
      CoreFramed(c, Noted(u, Started(a)), Granting(c, s, a));
    } else {
      CoreFramed(c, u, u.(active := None));
      DispatchRestores(c, u.(active := None), RuntimeLost);
    }
  }

  lemma BackedAnyway(c: Timing, past: seq<Note>, at: real, online: bool)
    requires Backed(c, past, at, online)
    ensures Backed(c, past, at, false)
  {
  }

  lemma SettleJustified(c: Timing, s: State, a: Attempt, v: Verdict)
    requires c.Valid() && Within(c, s, a) && NeverWrote(s.log, a) && TellsTruth(c, s.log, s.watched, a, v)
    requires RuntimeOk(c, s) && s.clock < s.validUntil
    ensures var t := Looked(c, s); Justified(c, t.log, t.watched, Sent(t.clock, |t.watched|, Settle(a, v)))
  {
    hide Core, Informed, TellsTruth, Backed, ProbedReady, Supervision.Looked, Supervision.Available;
    AuthorityIsBacked(c, s);
    AvailableIsProbed(c, s);
    BackedAnyway(c, s.log, s.clock, s.controlState == Some(Online));
    var t := Looked(c, s);
    TruthLater(c, s.log, s.watched, t.watched, a, v);
    assert t.watched[..|t.watched|] == t.watched;
  }

  lemma SettleRestores(c: Timing, t: State, a: Attempt, v: Verdict)
    requires Within(c, t, a) && t.live == multiset{}
    requires Justified(c, t.log, t.watched, Sent(t.clock, |t.watched|, Settle(a, v)))
    ensures Inv(c, Send(t, Settle(a, v)).(pc := Settling(a), lock := Main))
  {
    hide Core, Informed, Justified;
    var n := Sent(t.clock, |t.watched|, Settle(a, v));
    NotedKeepsCore(c, t, n);
    assert Wrote(n, a) && n in Send(t, Settle(a, v)).log;
    CoreFramed(c, Send(t, Settle(a, v)), Send(t, Settle(a, v)).(pc := Settling(a), lock := Main));
  }

  lemma EndSendRestores(c: Timing, s: State, a: Attempt, v: Verdict)
    requires c.Valid() && Within(c, s, a) && s.live == multiset{}
    requires NeverWrote(s.log, a) && TellsTruth(c, s.log, s.watched, a, v)
    ensures Inv(c, EndSend(c, s, a, v))
  {
    hide Inv, Within, Unwind, Severed, NeverWrote, TellsTruth, Justified, RuntimeOk, Looked;
    var t := Looked(c, s);
    LookedStaysWithin(c, s, a);
    LookedFrame(c, s);
    WithinTimed(c, t, a, t.nextBeat, Free);
    if !RuntimeOk(c, s) { UnwindRestores(c, t.(lock := Free), a, RuntimeLost); }
    else if s.clock >= s.validUntil { SeveredRestores(c, t.(lock := Free), a, 0); }
    else {
      SettleJustified(c, s, a, v);
      SettleRestores(c, t, a, v);
    }
  }

  // ------------------------------------------------- from the invariant and back to it

  lemma BetweenAttempts(c: Timing, s: State)
    requires Inv(c, s) && Current(s.pc).None? && !InFinal(s.pc)
    ensures Between(c, s)
    ensures s.lock.Main? <==> HoldsLock(s.pc)
    ensures BeforeEnrolment(s.pc) ==> !Enrolled(s.log)
    ensures MayEnroll(c, s.watched, s.pc)
  {
    hide Core, Informed;
  }

  lemma WithinAttempt(c: Timing, s: State)
    requires Inv(c, s) && Current(s.pc).Some?
    ensures Within(c, s, Current(s.pc).value)
    ensures s.lock.Main? <==> HoldsLock(s.pc)
    ensures Joined(s.pc) ==> s.live == multiset{}
    ensures BeforeWrite(s.pc) ==> NeverWrote(s.log, Current(s.pc).value)
    ensures s.pc.Settling? ==> !NeverWrote(s.log, Current(s.pc).value)
    ensures Decided(c, s.log, s.watched, s.pc)
  {
    hide Core, Informed;
  }

  lemma PlacedBetween(c: Timing, s: State, pc: Pc, lock: Lock)
    requires Between(c, s) && Current(pc).None? && !InFinal(pc) && (lock.Main? <==> HoldsLock(pc))
    requires (BeforeEnrolment(pc) ==> !Enrolled(s.log)) && MayEnroll(c, s.watched, pc)
    ensures Inv(c, s.(pc := pc, lock := lock))
  {
    hide Core, Informed;
    CoreFramed(c, s, s.(pc := pc, lock := lock));
  }

  lemma BetweenTimed(c: Timing, s: State, nextBeat: real, lock: Lock)
    requires Between(c, s)
    ensures Between(c, s.(nextBeat := nextBeat, lock := lock))
  {
    hide Core, Informed;
    CoreFramed(c, s, s.(nextBeat := nextBeat, lock := lock));
  }

  lemma WithinTimed(c: Timing, s: State, a: Attempt, nextBeat: real, lock: Lock)
    requires Within(c, s, a)
    ensures Within(c, s.(nextBeat := nextBeat, lock := lock), a)
  {
    hide Core, Informed;
    CoreFramed(c, s, s.(nextBeat := nextBeat, lock := lock));
  }

  lemma RegisterSent(c: Timing, s: State)
    requires Between(c, s) && !Enrolled(s.log) && (c.managed ==> ProbedSince(c, s.watched, 0))
    ensures Between(c, Send(s, Register))
  {
    assert s.watched[..|s.watched|] == s.watched;
    hide Core, Informed;
    NotedKeepsCore(c, s, Sent(s.clock, |s.watched|, Register));
  }

  lemma BetweenBeat(c: Timing, s: State)
    requires Between(c, s)
    ensures Between(c, Beat(c, s))
  {
    hide Core, Informed, Promotion, MeansToDrain, Confirmed;
    BeatAsksFor(c, s);
    NotedKeepsCore(c, s, Sent(s.clock, |s.watched|, Heartbeat(s.active, Promotion(c, s))));
  }

  lemma WithinSent(c: Timing, s: State, a: Attempt, m: Message)
    requires Within(c, s, a)
    requires m == Inspect(a) || m == Heartbeat(s.active, Promotion(c, s))
    ensures Within(c, Send(s, m), a)
    ensures NeverWrote(s.log, a) ==> NeverWrote(Send(s, m).log, a)
    ensures forall n :: n in s.log ==> n in Send(s, m).log
  {
    hide Core, Informed, Promotion, MeansToDrain, Confirmed;
    BeatAsksFor(c, s);
    NotedKeepsCore(c, s, Sent(s.clock, |s.watched|, m));
  }

  lemma BetweenLooked(c: Timing, s: State)
    requires c.Valid() && Between(c, s)
    ensures Between(c, Looked(c, s))
  {
    hide Core, Informed, Supervision.Looked;
    LookedKeepsCore(c, s);
  }

  lemma BetweenBeaten(c: Timing, s: State, sentAt: real, reply: Reply)
    requires Between(c, s)
    ensures Between(c, Beaten(c, s, sentAt, reply))
    ensures Between(c, Beaten(c, s, sentAt, reply).(lock := Free))
  {
    hide Core, Informed;
    BeatenKeepsCore(c, s, sentAt, reply);
    BetweenTimed(c, Beaten(c, s, sentAt, reply), Beaten(c, s, sentAt, reply).nextBeat, Free);
  }

  lemma WithinBeaten(c: Timing, s: State, a: Attempt, sentAt: real, reply: Reply)
    requires Within(c, s, a)
    ensures Within(c, Beaten(c, s, sentAt, reply), a)
    ensures Within(c, Beaten(c, s, sentAt, reply).(lock := Free), a)
    ensures NeverWrote(s.log, a) ==> NeverWrote(Beaten(c, s, sentAt, reply).log, a)
    ensures forall n :: n in s.log ==> n in Beaten(c, s, sentAt, reply).log
    ensures Beaten(c, s, sentAt, reply).live == s.live
  {
    hide Core, Informed;
    BeatenKeepsCore(c, s, sentAt, reply);
    WithinTimed(c, Beaten(c, s, sentAt, reply), a, Beaten(c, s, sentAt, reply).nextBeat, Free);
  }

  lemma DroppedIsBetween(c: Timing, s: State, a: Attempt)
    requires Within(c, s, a) && s.live == multiset{}
    ensures Between(c, s.(active := None))
  {
    hide Core, Informed;
    CoreFramed(c, s, s.(active := None));
  }

  // ---------------------------------------------------------- resuming the main loop

  lemma StartsProbed(c: Timing, s: State)
    requires c.Valid() && Between(c, s) && RuntimeOk(c, s)
    ensures c.managed ==> ProbedSince(c, Looked(c, s).watched, 0)
  {
    AvailableIsProbed(c, s);
    hide Core, Informed, Supervision.Looked, Supervision.Available;
    var w := Looked(c, s).watched;
    assert w[..|w|] == w;
    if c.managed {
      var i: nat, k: nat :| Supervision.Probe(c.policy, w, i, k);
    }
  }

  lemma SetupKeepsInv(c: Timing, s: State, input: Input)
    requires c.Valid() && Inv(c, s) && InSetup(s.pc) && CanResume(c, s, input)
    ensures Inv(c, ResumeSetup(c, s, input))
  {
    hide Inv, Between, Final, LoopTop, Looked, RuntimeOk;
    BetweenAttempts(c, s);
    if input.Throw? {
      var lock := if HoldsLock(s.pc) then Free else s.lock;
      BetweenTimed(c, s, s.nextBeat, lock);
      FinalRestores(c, s.(nextBeat := s.nextBeat, lock := lock));
    } else if s.pc.Registering? {
      RegisteringKeepsInv(c, s, input);
    } else if s.pc.RegisterBeat? {
      BetweenBeaten(c, s, s.pc.sentAt, input.reply);
      var t := Beaten(c, s, s.pc.sentAt, input.reply).(lock := Free);
      if input.reply.Ack? { LoopTopRestores(c, t); } else { FinalRestores(c, t); }
    } else if s.pc.RegisterLock? {
      RegisterSent(c, s);
      PlacedBetween(c, Send(s, Register), Registering(s.clock), Main);
    } else if s.pc.Starting? {
      BetweenLooked(c, s);
      LookedFrame(c, s);
      if RuntimeOk(c, s) { StartsProbed(c, s); }
      PlacedBetween(c, Looked(c, s), ResumeSetup(c, s, input).pc, s.lock);
    } else if s.pc.Asleep? || s.stop {
      FinalRestores(c, s);
    } else {
      PlacedBetween(c, s, ResumeSetup(c, s, input).pc, s.lock);
    }
  }

  lemma LookedFrame(c: Timing, s: State)
    ensures Looked(c, s).lock == s.lock && Looked(c, s).nextBeat == s.nextBeat && Looked(c, s).clock == s.clock
    ensures Looked(c, s).log == s.log
  {
  }

  lemma RegisteringKeepsInv(c: Timing, s: State, input: Input)
    requires c.Valid() && Inv(c, s) && s.pc.Registering? && CanResume(c, s, input) && input.Answer?
    ensures Inv(c, ResumeSetup(c, s, input))
  {
    hide Inv, Between, Final, LoopTop, Promotion;
    BetweenAttempts(c, s);
    var t := Beaten(c, s, s.pc.sentAt, input.reply);
    BetweenBeaten(c, s, s.pc.sentAt, input.reply);
    if !input.reply.Ack? { FinalRestores(c, t.(lock := Free)); }
    else if t.draining {
      BetweenBeat(c, t);
      PlacedBetween(c, Beat(c, t), RegisterBeat(s.clock), s.lock);
    } else { LoopTopRestores(c, t.(lock := Free)); }
  }

  lemma ClaimKeepsInv(c: Timing, s: State, input: Input)
    requires c.Valid() && Inv(c, s) && InClaim(s.pc) && CanResume(c, s, input)
    ensures Inv(c, ResumeClaim(c, s, input))
  {
    hide Inv, Between, Final, LoopTop, LoopReady, ClaimIfReady, Granting, FreshToken, Dispatch, Looked, RuntimeOk, Promotion;
    BetweenAttempts(c, s);
    if input.Throw? {
      var lock := if HoldsLock(s.pc) then Free else s.lock;
      var next := if s.pc.LoopBeat? || s.pc.ClaimBeat? then s.clock + c.interval else s.nextBeat;
      BetweenTimed(c, s, next, lock);
      FinalRestores(c, s.(nextBeat := next, lock := lock));
    } else if s.pc.LoopLock? {
      if Due(s) {
        BetweenBeat(c, s);
        PlacedBetween(c, Beat(c, s), LoopBeat(s.clock), Main);
      } else { LoopReadyRestores(c, s); }
    } else if s.pc.Poll? {
      LoopTopRestores(c, s);
    } else if s.pc.ClaimLock? {
      if ReadyNow(c, s) && Due(s) {
        var t := Looked(c, s);
        BetweenLooked(c, s);
        BetweenBeat(c, t);
        PlacedBetween(c, Beat(c, t), ClaimBeat(s.clock), Main);
      } else { ClaimIfReadyRestores(c, s); }
    } else if s.pc.Claiming? {
      BetweenTimed(c, s, s.nextBeat, Free);
      if input.reply.Grant? { GrantingRestores(c, s, input.reply.attempt); }
      else if input.reply.NoJob? { NoJobKeepsInv(c, s); }
      else { DispatchRestores(c, s.(nextBeat := s.nextBeat, lock := Free), Transport(Code(input.reply))); }
    } else {
      var t := Beaten(c, s, s.pc.sentAt, input.reply);
      BetweenBeaten(c, s, s.pc.sentAt, input.reply);
      if !input.reply.Ack? { DispatchRestores(c, t.(lock := Free), Transport(Code(input.reply))); }
      else if s.pc.LoopBeat? { LoopReadyRestores(c, t.(lock := Free)); }
      else { ClaimIfReadyRestores(c, t); }
    }
  }

  lemma NoJobKeepsInv(c: Timing, s: State)
    requires Between(c, s)
    ensures Inv(c, s.(active := None, lock := Free, pc := Poll))
  {
    hide Core, Informed;
    CoreFramed(c, s, s.(active := None, lock := Free, pc := Poll));
  }

  lemma RunKeepsInv(c: Timing, s: State, input: Input)
    requires c.Valid() && Inv(c, s) && InRun(s.pc) && CanResume(c, s, input)
    ensures Inv(c, ResumeRun(c, s, input))
  {
    hide Inv, Within, Unwind, RunBeaten, RunLoop, Severed, Looked, RuntimeOk, NeverWrote, Promotion;
    var a := s.pc.attempt;
    WithinAttempt(c, s);
    if s.pc.RunBeat? {
      RunBeatKeepsInv(c, s, input);
    } else if input.Throw? {
      UnwindRestores(c, s, a, Thrown);
    } else if s.pc.RunLock? {
      if Due(s) {
        WithinSent(c, s, a, Heartbeat(s.active, Promotion(c, s)));
        PlacedWithin(c, Beat(c, s), a, RunBeat(a, s.clock), Main);
      } else { RunBeatenRestores(c, s, a); }
    } else if s.pc.RunWait? {
      RunLoopRestores(c, s, a);
    } else {
      LookedStaysWithin(c, s, a);
      if RuntimeOk(c, s) {
        RecheckPassed(c, s, a);
        PlacedWithin(c, Looked(c, s), a, EndLock(a, Verdict.Failure(true)), s.lock);
      }
      else { UnwindRestores(c, Looked(c, s), a, RuntimeLost); }
    }
  }

  /** The check is over and the runtime is available, so its probe was answered READY. */
  lemma RecheckPassed(c: Timing, s: State, a: Attempt)
    requires s.pc.Check? && s.pc.attempt == a && Decided(c, s.log, s.watched, s.pc)
    requires c.managed ==> ProbedSince(c, s.watched, s.pc.since)
    ensures Decided(c, s.log, Looked(c, s).watched, EndLock(a, Verdict.Failure(true)))
  {
    hide Supervision.Looked, Supervision.Available, ProbedSince;
    if c.managed {
      ProbeLater(c, s.watched, Looked(c, s).watched, s.pc.since);
      assert Rechecking(a, s.pc.since) in s.log;
    }
  }

  lemma RunBeatKeepsInv(c: Timing, s: State, input: Input)
    requires c.Valid() && Inv(c, s) && s.pc.RunBeat? && CanResume(c, s, input)
    ensures Inv(c, ResumeRun(c, s, input))
  {
    hide Inv, Within, Unwind, RunBeaten, Severed, NeverWrote;
    var a := s.pc.attempt;
    WithinAttempt(c, s);
    if input.Answer? {
      var t := Beaten(c, s, s.pc.sentAt, input.reply);
      WithinBeaten(c, s, a, s.pc.sentAt, input.reply);
      if input.reply.Ack? { RunBeatenRestores(c, t.(lock := Free), a); }
      else { SeveredRestores(c, t.(lock := Free), a, Code(input.reply)); }
    } else {
      WithinTimed(c, s, a, s.clock + c.interval, Free);
      UnwindRestores(c, Deferred(c, s), a, Thrown);
    }
  }

  lemma NoneLive(c: Timing, s: State, a: Attempt)
    requires Within(c, s, a) && a !in s.live
    ensures s.live == multiset{}
  {
    hide Core, Informed;
  }

  lemma CleanupKeepsInv(c: Timing, s: State, input: Input)
    requires c.Valid() && Inv(c, s) && CanResume(c, s, input)
    requires s.pc.Hook? || s.pc.Join? || s.pc.Waiter?
    ensures Inv(c, ResumeEnd(c, s, input))
  {
    hide Inv, Within, Between, Dispatch, Unhooked, NeverWrote;
    var a := s.pc.attempt;
    WithinAttempt(c, s);
    if s.pc.Waiter? {
      DroppedIsBetween(c, s, a);
      DispatchRestores(c, s.(active := None), if input.Throw? then Thrown else s.pc.why);
    } else if s.pc.Join? {
      NoneLive(c, s, a);
      UnhookedRestores(c, s, a, s.pc.why);
    } else {
      PlacedWithin(c, s, a, ResumeEnd(c, s, input).pc, s.lock);
    }
  }

  lemma EndKeepsInv(c: Timing, s: State, input: Input)
    requires c.Valid() && Inv(c, s) && CanResume(c, s, input)
    requires s.pc.EndLock? || s.pc.AskLock?
    ensures Inv(c, ResumeEnd(c, s, input))
  {
    hide Inv, Within, Unwind, EndSend, NeverWrote, Promotion;
    var a := s.pc.attempt;
    WithinAttempt(c, s);
    if input.Throw? {
      UnwindRestores(c, s, a, Thrown);
    } else if s.pc.AskLock? {
      WithinSent(c, s, a, Inspect(a));
      PlacedWithin(c, Send(s, Inspect(a)), a, Asking(a), Main);
    } else if Due(s) {
      WithinSent(c, s, a, Heartbeat(s.active, Promotion(c, s)));
      PlacedWithin(c, Beat(c, s), a, EndBeat(a, s.pc.verdict, s.clock), Main);
    } else {
      EndSendRestores(c, s, a, s.pc.verdict);
    }
  }

  lemma EndReplyKeepsInv(c: Timing, s: State, input: Input)
    requires c.Valid() && Inv(c, s) && CanResume(c, s, input)
    requires s.pc.EndBeat? || s.pc.Asking?
    ensures Inv(c, ResumeEnd(c, s, input))
  {
    hide Inv, Within, Unwind, EndSend, Severed, NeverWrote;
    var a := s.pc.attempt;
    WithinAttempt(c, s);
    WithinTimed(c, s, a, s.nextBeat, Free);
    WithinTimed(c, s, a, s.clock + c.interval, Free);
    var free := s.(nextBeat := s.nextBeat, lock := Free);
    if input.Throw? {
      UnwindRestores(c, if s.pc.EndBeat? then Deferred(c, s) else free, a, Thrown);
    } else if s.pc.EndBeat? {
      var t := Beaten(c, s, s.pc.sentAt, input.reply);
      WithinBeaten(c, s, a, s.pc.sentAt, input.reply);
      if input.reply.Ack? { EndSendRestores(c, t, a, s.pc.verdict); }
      else { SeveredRestores(c, t.(lock := Free), a, Code(input.reply)); }
    } else {
      UnwindRestores(c, free, a,
        if !input.reply.JobStatus? then Transport(Code(input.reply))
        else if input.reply.cancelled then Finished else Transport(409));
    }
  }

  lemma SettlingKeepsInv(c: Timing, s: State, input: Input)
    requires c.Valid() && Inv(c, s) && CanResume(c, s, input) && s.pc.Settling?
    ensures Inv(c, ResumeEnd(c, s, input))
  {
    hide Inv, Core, Unwind, Severed;
    var a := s.pc.attempt;
    var t := s.(lock := Free);
    WithinAttempt(c, s);
    hide NeverWrote;
    WithinTimed(c, s, a, s.nextBeat, Free);
    if input.Throw? { UnwindRestores(c, t, a, Thrown); }
    else if input.reply.Accepted? {
      NotedKeepsCore(c, t, Settled(a));
      var u := Noted(t, Settled(a)).(active := None);
      CoreFramed(c, Noted(t, Settled(a)), u);
      UnwindRestores(c, u, a, Finished);
    } else { SeveredRestores(c, t, a, Code(input.reply)); }
  }

  lemma OwnedFramed(c: Timing, s: State, owned: Lifecycle.Owned)
    requires Core(c, s) && Lifecycle.Truthful(owned)
    ensures Core(c, s.(owned := owned))
  {
    AuthorityFramed(c, s, s.(owned := owned));
  }

  lemma GoingOfflineKeepsInv(c: Timing, s: State)
    requires Inv(c, s) && s.pc.OfflineLock? && s.registered
    ensures Inv(c, Send(s, SetOffline).(pc := GoingOffline, lock := Main))
  {
    assert DrainIntent in s.log && Listed(s);
    assert Enlisted(s.log) by { hide Enlisted; }
    hide Core, Informed, Listed, Enlisted;
    ListedAfter(s, Sent(s.clock, |s.watched|, SetOffline), Send(s, SetOffline).(pc := GoingOffline, lock := Main));
    NotedKeepsCore(c, s, Sent(s.clock, |s.watched|, SetOffline));
    CoreFramed(c, Send(s, SetOffline), Send(s, SetOffline).(pc := GoingOffline, lock := Main));
  }

  lemma FinalPlaced(c: Timing, s: State, pc: Pc, lock: Lock, registered: bool)
    requires Inv(c, s) && InFinal(s.pc) && (pc.Stopping? || pc.Done?) && !lock.Main?
    requires pc.Stopping? ==> s.pc.Closing? && registered == s.registered
    ensures Inv(c, s.(pc := pc, lock := lock, registered := registered))
  {
    hide Enlisted;
    hide Core, Informed;
    CoreFramed(c, s, s.(pc := pc, lock := lock, registered := registered));
  }

  lemma FinalLock(c: Timing, s: State)
    requires Inv(c, s)
    ensures s.lock.Main? <==> HoldsLock(s.pc)
  {
  }

  lemma FinalKeepsInv(c: Timing, s: State, input: Input)
    requires c.Valid() && Inv(c, s) && InFinal(s.pc) && CanResume(c, s, input)
    ensures Inv(c, ResumeFinal(c, s, input))
  {
    hide Lifecycle.Next, Lifecycle.Result, Lifecycle.Ticks, Inv;
    var after := ResumeFinal(c, s, input);
    FinalLock(c, s);
    if s.pc.Stopping? && input.Shut? {
      StoppingKeepsInv(c, s, input);
    } else if s.pc.OfflineLock? && input.Go? && s.registered {
      GoingOfflineKeepsInv(c, s);
    } else {
      FinalPlaced(c, s, after.pc, after.lock, after.registered);
    }
  }

  lemma ListedFramed(s: State, t: State)
    requires Listed(s) && t.log == s.log && t.registered == s.registered
    ensures Listed(t)
  {
  }

  lemma StoppingKeepsInv(c: Timing, s: State, input: Input)
    requires c.Valid() && Inv(c, s) && s.pc.Stopping? && CanResume(c, s, input) && input.Shut?
    ensures Inv(c, ResumeFinal(c, s, input))
  {
    hide Core, Informed, Listed, Lifecycle.Ticks;
    var call := Lifecycle.ShutdownOwned(input.replies);
    var owned := Lifecycle.Next(s.owned, call);
    CoreIsTruthful(c, s);
    Lifecycle.TruthfulUnlessRelapse(s.owned, call);
    OwnedFramed(c, s, owned);
    var t := s.(owned := owned);
    ListedAfter(s, OwnedDown, Noted(t, OwnedDown).(pc := OfflineLock));
    ListedFramed(s, t.(pc := Done));
    NotedKeepsCore(c, t, OwnedDown);
    CoreFramed(c, t, t.(pc := Done));
    CoreFramed(c, Noted(t, OwnedDown), Noted(t, OwnedDown).(pc := OfflineLock));
  }

  lemma CoreIsTruthful(c: Timing, s: State)
    requires Core(c, s)
    ensures Lifecycle.Truthful(s.owned)
  {
  }

  // -------------------------------------------------------------------- every step

  predicate Quiet(n: Note) {
    !n.Settled? && !(n.Sent? && (n.message.Settle? || n.message.SetOffline? || n.message.Register?))
  }

  /** A step beside the main loop: it may add one quiet note and end the executor task. */
  lemma AsideKeepsInv(c: Timing, s: State, t: State, n: Note)
    requires Inv(c, s) && Core(c, t) && Quiet(n)
    requires if InFinal(s.pc) then !s.pc.Done? ==> Listed(t) else Informed(c, t)
    requires t.log == s.log || t.log == s.log + [n]
    requires t.pc == s.pc && t.active == s.active && t.owned == s.owned && (s.stop ==> t.stop)
    requires t.live == s.live || t.live == multiset{}
    requires s.watched <= t.watched
    requires t.lock.Main? <==> s.lock.Main?
    ensures Inv(c, t)
  {
    hide Core, Informed, AttemptKnown, Listed, ProbedSince;
    if s.pc.RegisterLock? && c.managed { ProbeLater(c, s.watched, t.watched, 0); }
    AsideKnown(c, s, t, n);
  }

  lemma AsideKnown(c: Timing, s: State, t: State, n: Note)
    requires AttemptKnown(c, s) && Quiet(n) && (t.log == s.log || t.log == s.log + [n])
    requires t.pc == s.pc && t.active == s.active && s.watched <= t.watched
    ensures AttemptKnown(c, t)
  {
    hide Decided;
    DecidedLater(c, s.log, s.watched, t.log, t.watched, s.pc);
  }

  lemma ResumeKeepsInv(c: Timing, s: State, input: Input)
    requires c.Valid() && Inv(c, s) && CanResume(c, s, input)
    ensures Inv(c, Resumed(c, s, input))
  {
    hide Inv, CanResume, ResumeSetup, ResumeClaim, ResumeRun, ResumeEnd, ResumeFinal;
    if InSetup(s.pc) { SetupKeepsInv(c, s, input); }
    else if InClaim(s.pc) { ClaimKeepsInv(c, s, input); }
    else if InRun(s.pc) { RunKeepsInv(c, s, input); }
    else if InFinal(s.pc) { FinalKeepsInv(c, s, input); }
    else if s.pc.Settling? { SettlingKeepsInv(c, s, input); }
    else if s.pc.EndBeat? || s.pc.Asking? { EndReplyKeepsInv(c, s, input); }
    else if s.pc.Hook? || s.pc.Join? || s.pc.Waiter? { CleanupKeepsInv(c, s, input); }
    else { EndKeepsInv(c, s, input); }
  }

  lemma StepKeepsInv(c: Timing, s: State, step: Step)
    requires c.Valid() && Inv(c, s) && CanStep(c, s, step)
    ensures Inv(c, Next(c, s, step))
  {
    hide Core, Informed, CanResume, Resumed, Supervision.CanStep, Supervision.Next, LeavesClean, OneLive, AttemptKnown, FreshToken, Enlisted;
    var at := s.(clock := Time(step));
    LaterKeepsInv(c, s, at.clock);
    if Listed(s) { ListedNoted(at, DrainIntent); }
    match step
    case DrainSignal(_) =>
      DrainKeepsCore(c, at, at.stop);
      AsideKeepsInv(c, at, Next(c, s, step), DrainIntent);
    case StopSignal(_) =>
      DrainKeepsCore(c, at, true);
      AsideKeepsInv(c, at, Next(c, s, step), DrainIntent);
    case Watch(w) =>
      WatchKeepsCore(c, s, w);
      AsideKeepsInv(c, at, Next(c, s, step), DrainIntent);
    case DrainGo(_) =>
      if s.registered && !s.stop {
        DrainBeatKeepsCore(c, at);
        CoreFramed(c, Beat(c, at), Next(c, s, step));
        AsideKeepsInv(c, at, Next(c, s, step), Sent(at.clock, |at.watched|, Heartbeat(at.active, Promotion(c, at))));
      }
    case DrainAnswer(_, r) => DrainAnswerKeepsInv(c, at, r);
    case DrainThrow(_) =>
      CoreFramed(c, at, Next(c, s, step));
      AsideKeepsInv(c, at, Next(c, s, step), DrainIntent);
    case Finish(_, a, ending) => FinishKeepsInv(c, at, a, ending);
    case Resume(_, input) =>
      CanResumeLater(c, s, input, at.clock);
      ResumeKeepsInv(c, at, input);
  }

  lemma CanResumeLater(c: Timing, s: State, input: Input, now: real)
    requires CanResume(c, s, input) && s.clock <= now
    ensures CanResume(c, s.(clock := now), input)
  {
    if RuntimeOk(c, s.(clock := now)) { assert RuntimeOk(c, s); }
  }

  lemma DrainAnswerKeepsInv(c: Timing, s: State, r: Reply)
    requires Inv(c, s) && s.lock.Drain? && BeatReply(r)
    ensures Inv(c, Beaten(c, s, s.lock.sentAt, r).(lock := Free))
  {
    var t := Beaten(c, s, s.lock.sentAt, r);
    if Listed(s) { ListedBeaten(c, s, s.lock.sentAt, r); }
    hide Enlisted;
    BeatenKeepsCore(c, s, s.lock.sentAt, r);
    CoreFramed(c, t, t.(lock := Free));
    AsideKeepsInv(c, s, t.(lock := Free), if r.Ack? then Acked(s.lock.sentAt, r.state) else ControlLost(Code(r)));
  }

  /** A drain heartbeat names the lease only of an attempt that is not settled. */
  lemma DrainBeatKeepsCore(c: Timing, s: State)
    requires Inv(c, s) && !s.stop
    ensures Core(c, Beat(c, s)) && Informed(c, Beat(c, s)) && !InFinal(s.pc)
  {
    hide Core, Informed, Promotion, MeansToDrain, Confirmed;
    BeatAsksFor(c, s);
    NotedKeepsCore(c, s, Sent(s.clock, |s.watched|, Heartbeat(s.active, Promotion(c, s))));
  }

  lemma FinishKeepsInv(c: Timing, s: State, a: Attempt, ending: Ending)
    requires Inv(c, s) && a in s.live
    ensures Inv(c, Noted(s, Ended(a, ending)).(live := s.live - multiset{a}, endings := s.endings[a := ending]))
  {
    hide Sound, Authority, Supervised, Informed, Listed, Enlisted;
    var t := Noted(s, Ended(a, ending));
    var u := t.(live := s.live - multiset{a}, endings := s.endings[a := ending]);
    NotedKeepsCore(c, s, Ended(a, ending));
    AuthorityFramed(c, t, u);
    SupervisedFramed(c, t, u);
    if Informed(c, t) { InformedFramed(c, t, u); }
    assert s.live == multiset{a};
    assert u.live == multiset{};
    AsideKeepsInv(c, s, u, Ended(a, ending));
  }

  lemma InitialInv(c: Timing, s: State)
    requires c.Valid() && Initial(s)
    ensures Inv(c, s)
  {
  }

  lemma {:induction false} RunsKeepInv(c: Timing, s: State, steps: seq<Step>)
    requires c.Valid() && Inv(c, s) && Runs(c, s, steps)
    ensures Inv(c, After(c, s, steps))
    decreases |steps|
  {
    hide Inv, CanStep, Next;
    if steps != [] {
      StepKeepsInv(c, s, steps[0]);
      RunsKeepInv(c, Next(c, s, steps[0]), steps[1..]);
    }
  }
}
