/** When the Worker loop speaks: the heartbeat deadline through every step, which heartbeats
    are sent and why, and what the loop has to send at the points where it must. */
module WorkerLoopPace {
  import opened Contracts
  import opened WorkerLoop
  import opened WorkerLoopInvariant
  import opened WorkerLoopSteps
  import opened WorkerLoopSafety
  import Lifecycle
  import Supervision

  /** `log` continues `past` without a heartbeat. */
  predicate Silent(past: seq<Note>, log: seq<Note>) {
    past <= log && forall i :: |past| <= i < |log| ==> !IsBeat(log[i])
  }

  /** Some call to Control was lost between `past` and `log`. */
  predicate Loses(past: seq<Note>, log: seq<Note>) {
    exists i :: |past| <= i < |log| && log[i].ControlLost?
  }

  /** From `s` to `t` no heartbeat is sent, and the deadline moves only with a lost call. */
  predicate Paced(c: Timing, s: State, t: State) {
    && t.clock == s.clock && Silent(s.log, t.log)
    && (t.nextBeat == s.nextBeat || (t.nextBeat == s.clock + c.interval && Loses(s.log, t.log)))
  }

  lemma PacedFramed(c: Timing, s: State, x: State, t: State)
    requires Paced(c, s, x) && t.log == x.log && t.nextBeat == x.nextBeat && t.clock == x.clock
    ensures Paced(c, s, t)
  {
  }

  lemma PacedNoted(c: Timing, s: State, x: State, n: Note, t: State)
    requires Paced(c, s, x) && !IsBeat(n)
    requires t.log == x.log + [n] && t.clock == x.clock
    requires t.nextBeat == x.nextBeat || (n.ControlLost? && t.nextBeat == s.clock + c.interval)
    ensures Paced(c, s, t)
  {
    assert t.log[|x.log|] == n && forall i :: 0 <= i < |x.log| ==> t.log[i] == x.log[i];
    if Loses(s.log, x.log) {
      var i :| |s.log| <= i < |x.log| && x.log[i].ControlLost?;
      assert t.log[i].ControlLost?;
    }
  }

  lemma PacedSelf(c: Timing, s: State)
    ensures Paced(c, s, s)
  {
  }

  lemma LostPaced(c: Timing, s: State, x: State, status: nat)
    requires Paced(c, s, x)
    ensures Paced(c, s, Lost(c, x, status))
  {
    assert x.clock == s.clock;
    hide Paced;
    PacedNoted(c, s, x, ControlLost(status), Lost(c, x, status));
  }

  lemma LookedPaced(c: Timing, s: State, x: State)
    requires Paced(c, s, x)
    ensures Paced(c, s, Looked(c, x)) && Paced(c, s, ReadyLook(c, x))
  {
    hide Paced, Authorized, Supervision.Looked;
    PacedFramed(c, s, x, Looked(c, x));
  }

  lemma FinalPaced(c: Timing, s: State, x: State)
    requires Paced(c, s, x)
    ensures Paced(c, s, Final(c, x))
  {
    hide Paced;
    PacedNoted(c, s, x, DrainIntent, Final(c, x));
  }

  lemma LoopTopPaced(c: Timing, s: State, x: State)
    requires Paced(c, s, x)
    ensures Paced(c, s, LoopTop(c, x))
  {
    hide Paced, Final;
    if x.stop { FinalPaced(c, s, x); } else { PacedFramed(c, s, x, x.(pc := LoopLock)); }
  }

  lemma DispatchPaced(c: Timing, s: State, x: State, why: Why)
    requires Paced(c, s, x)
    ensures Paced(c, s, Dispatch(c, x, why))
  {
    hide Paced, Final, LoopTop, Lost;
    match why
    case Finished => LoopTopPaced(c, s, x);
    case RuntimeLost => PacedFramed(c, s, x, x.(pc := Poll));
    case Transport(status) =>
      LostPaced(c, s, x, status);
      PacedFramed(c, s, Lost(c, x, status), Lost(c, x, status).(pc := Poll));
    case Thrown => FinalPaced(c, s, x);
  }

  lemma LoopReadyPaced(c: Timing, s: State, x: State)
    requires Paced(c, s, x)
    ensures Paced(c, s, LoopReady(c, x))
  {
    hide Paced, ReadyLook, ReadyNow;
    LookedPaced(c, s, x);
    PacedFramed(c, s, ReadyLook(c, x), LoopReady(c, x));
  }

  lemma ClaimIfReadyPaced(c: Timing, s: State, x: State)
    requires Paced(c, s, x)
    ensures Paced(c, s, ClaimIfReady(c, x))
  {
    hide Paced, ReadyLook, ReadyNow, LoopTop;
    LookedPaced(c, s, x);
    var look := ReadyLook(c, x);
    if ReadyNow(c, x) {
      PacedNoted(c, s, look, Sent(look.clock, |look.watched|, Claim), ClaimIfReady(c, x));
    } else {
      PacedFramed(c, s, look, look.(lock := Free));
      LoopTopPaced(c, s, look.(lock := Free));
    }
  }

  lemma UnwindPaced(c: Timing, s: State, x: State, a: Attempt, why: Why)
    requires Paced(c, s, x)
    ensures Paced(c, s, Unwind(c, x, a, why)) && Paced(c, s, Unhooked(c, x, a, why))
  {
    hide Paced, Dispatch;
    PacedFramed(c, s, x, x.(pc := Hook(a, why)));
    PacedFramed(c, s, x, x.(pc := Waiter(a, why)));
    PacedFramed(c, s, x, x.(active := None));
    DispatchPaced(c, s, x.(active := None), why);
  }

  lemma SeveredPaced(c: Timing, s: State, x: State, a: Attempt, status: nat)
    requires Paced(c, s, x)
    ensures Paced(c, s, Severed(c, x, a, status))
  {
    hide Paced, Unwind, Lost;
    LostPaced(c, s, x, status);
    var t := Lost(c, x, status);
    PacedFramed(c, s, t, t.(pc := AskLock(a)));
    UnwindPaced(c, s, t, a, Transport(status));
  }

  lemma RunBeatenPaced(c: Timing, s: State, x: State, a: Attempt)
    requires Paced(c, s, x)
    ensures Paced(c, s, RunBeaten(c, x, a))
  {
    hide Paced, Unwind, Looked, RuntimeOk;
    LookedPaced(c, s, x);
    PacedFramed(c, s, Looked(c, x), Looked(c, x).(pc := RunWait(a)));
    UnwindPaced(c, s, Looked(c, x), a, RuntimeLost);
  }

  lemma RunEndedPaced(c: Timing, s: State, x: State, a: Attempt)
    requires Paced(c, s, x)
    ensures Paced(c, s, RunEnded(c, x, a))
  {
    hide Paced, Unwind, Looked, RuntimeOk;
    LookedPaced(c, s, x);
    var t := Looked(c, x);
    UnwindPaced(c, s, t, a, RuntimeLost);
    UnwindPaced(c, s, t, a, Thrown);
    if RuntimeOk(c, x) && a in x.endings && !x.endings[a].Cancelled? {
      if x.endings[a].Raised? && c.managed {
        PacedNoted(c, s, t, Rechecking(a, |t.watched|), RunEnded(c, x, a));
      } else {
        PacedFramed(c, s, t, RunEnded(c, x, a));
      }
    }
  }

  lemma RunLoopPaced(c: Timing, s: State, x: State, a: Attempt)
    requires Paced(c, s, x)
    ensures Paced(c, s, RunLoop(c, x, a))
  {
    hide Paced, Unwind, Looked, RuntimeOk, RunEnded;
    RunEndedPaced(c, s, x, a);
    LookedPaced(c, s, x);
    UnwindPaced(c, s, Looked(c, x), a, RuntimeLost);
    PacedFramed(c, s, Looked(c, x), Looked(c, x).(pc := RunLock(a)));
  }

  lemma EndSendPaced(c: Timing, s: State, x: State, a: Attempt, v: Verdict)
    requires Paced(c, s, x)
    ensures Paced(c, s, EndSend(c, x, a, v))
  {
    hide Paced, Unwind, Severed, Looked, RuntimeOk;
    LookedPaced(c, s, x);
    var t := Looked(c, x);
    PacedFramed(c, s, t, t.(lock := Free));
    UnwindPaced(c, s, t.(lock := Free), a, RuntimeLost);
    SeveredPaced(c, s, t.(lock := Free), a, 0);
    PacedNoted(c, s, t, Sent(t.clock, |t.watched|, Settle(a, v)), Send(t, Settle(a, v)).(pc := Settling(a), lock := Main));
  }

  lemma GrantingPaced(c: Timing, s: State, a: Attempt)
    ensures Paced(c, s, Granting(c, s, a))
  {
    hide Paced, Dispatch, Looked, RuntimeOk;
    PacedSelf(c, s);
    var t := Noted(s, Granted(a)).(active := Some(a), lock := Free);
    PacedNoted(c, s, s, Granted(a), t);
    LookedPaced(c, s, t);
    var u := Looked(c, t);
    PacedFramed(c, s, u, u.(active := None));
    DispatchPaced(c, s, u.(active := None), RuntimeLost);
    if RuntimeOk(c, t) { PacedNoted(c, s, u, Started(a), Granting(c, s, a)); }
  }

  // ----------------------------------------------------------------- one resumption

  /** The resumption ends a heartbeat or the enrolment: a reply arrives, or it is interrupted. */
  predicate BeatEnds(pc: Pc, input: Input) {
    AwaitsBeat(pc) && (input.Answer? || (input.Throw? && !InSetup(pc)))
  }

  /** The loop is about to send a heartbeat that is due. */
  predicate BeatIsDue(c: Timing, s: State, input: Input) {
    && input.Go? && s.clock >= s.nextBeat
    && (s.pc.LoopLock? || s.pc.RunLock? || s.pc.EndLock? || (s.pc.ClaimLock? && ReadyNow(c, s)))
  }

  /** The enrolment was acknowledged to a Worker that has been told to drain meanwhile. */
  predicate BeatAfterEnrolment(s: State, input: Input) {
    s.pc.Registering? && input.Answer? && input.reply.Ack? && s.draining
  }

  /** What one resumption does to the deadline, and which heartbeats it sends. */
  predicate OnPace(c: Timing, s: State, input: Input, t: State) {
    && s.log <= t.log && t.clock == s.clock
    && (if BeatEnds(s.pc, input) then t.nextBeat == s.clock + c.interval
        else t.nextBeat == s.nextBeat || (t.nextBeat == s.clock + c.interval && Loses(s.log, t.log)))
    && (if BeatIsDue(c, s, input) || BeatAfterEnrolment(s, input) then
          t.log != s.log && IsBeat(t.log[|t.log| - 1]) && t.log[|t.log| - 1].at == s.clock
          && Silent(s.log, t.log[..|t.log| - 1]) && AwaitsBeat(t.pc)
        else Silent(s.log, t.log))
  }

  lemma QuietOnPace(c: Timing, s: State, input: Input, t: State)
    requires Paced(c, s, t) && !BeatEnds(s.pc, input) && !BeatIsDue(c, s, input) && !BeatAfterEnrolment(s, input)
    ensures OnPace(c, s, input, t)
  {
  }

  /** After the end of a heartbeat `x` has the new deadline. */
  lemma EndedOnPace(c: Timing, s: State, input: Input, x: State, t: State)
    requires BeatEnds(s.pc, input) && !BeatAfterEnrolment(s, input)
    requires x.clock == s.clock && x.nextBeat == s.clock + c.interval && Silent(s.log, x.log) && Paced(c, x, t)
    ensures OnPace(c, s, input, t)
  {
    assert forall i :: 0 <= i < |x.log| ==> t.log[i] == x.log[i];
  }

  lemma BeatenSilent(c: Timing, s: State, sentAt: real, reply: Reply)
    ensures var x := Beaten(c, s, sentAt, reply);
            x.clock == s.clock && x.nextBeat == s.clock + c.interval && Silent(s.log, x.log)
  {
  }

  /** A due heartbeat is sent from `x`, reached in silence. */
  lemma BeatOnPace(c: Timing, s: State, input: Input, x: State, pc: Pc)
    requires BeatIsDue(c, s, input) && x.log == s.log && x.clock == s.clock && x.nextBeat == s.nextBeat && AwaitsBeat(pc)
    ensures OnPace(c, s, input, Beat(c, x).(pc := pc, lock := Main))
  {
    hide Promotion, ReadyNow;
    var t := Beat(c, x).(pc := pc, lock := Main);
    assert t.log[..|t.log| - 1] == s.log;
  }

  lemma SetupOnPace(c: Timing, s: State, input: Input)
    requires InSetup(s.pc) && CanResume(c, s, input)
    ensures OnPace(c, s, input, ResumeSetup(c, s, input))
  {
    hide Paced, OnPace, Final, LoopTop, Lost, Looked, RuntimeOk;
    PacedSelf(c, s);
    if input.Throw? {
      var x := s.(lock := if HoldsLock(s.pc) then Free else s.lock);
      PacedFramed(c, s, s, x);
      FinalPaced(c, s, x);
      QuietOnPace(c, s, input, Final(c, x));
    } else if s.pc.Registering? || s.pc.RegisterBeat? {
      EnrolmentOnPace(c, s, input);
    } else {
      var t := ResumeSetup(c, s, input);
      FinalPaced(c, s, s);
      LookedPaced(c, s, s);
      if s.pc.RegisterLock? { PacedNoted(c, s, s, Sent(s.clock, |s.watched|, Register), t); }
      else if s.pc.Starting? { PacedFramed(c, s, Looked(c, s), t); }
      else if s.pc.Boot? && !s.stop { PacedFramed(c, s, s, t); }
      QuietOnPace(c, s, input, t);
    }
  }

  lemma LostSilent(c: Timing, s: State, status: nat)
    ensures var x := Lost(c, s, status).(lock := Free);
            x.clock == s.clock && x.nextBeat == s.clock + c.interval && Silent(s.log, x.log)
  {
  }

  lemma EnrolmentOnPace(c: Timing, s: State, input: Input)
    requires (s.pc.Registering? || s.pc.RegisterBeat?) && input.Answer? && CanResume(c, s, input)
    ensures OnPace(c, s, input, ResumeSetup(c, s, input))
  {
    hide Paced, OnPace, Final, LoopTop;
    if !input.reply.Ack? {
      var x := Lost(c, s, Code(input.reply)).(lock := Free);
      LostSilent(c, s, Code(input.reply));
      PacedSelf(c, x);
      FinalPaced(c, x, x);
      EndedOnPace(c, s, input, x, Final(c, x));
    } else if s.pc.Registering? && s.draining {
      FirstBeatOnPace(c, s, input);
    } else {
      var x := Beaten(c, s, s.pc.sentAt, input.reply).(lock := Free);
      BeatenSilent(c, s, s.pc.sentAt, input.reply);
      PacedSelf(c, x);
      LoopTopPaced(c, x, x);
      EndedOnPace(c, s, input, x, LoopTop(c, x));
    }
  }

  lemma FirstBeatOnPace(c: Timing, s: State, input: Input)
    requires s.pc.Registering? && input.Answer? && input.reply.Ack? && s.draining
    ensures OnPace(c, s, input, ResumeSetup(c, s, input))
  {
    hide Promotion;
    var t := ResumeSetup(c, s, input);
    assert t.log[..|t.log| - 1] == s.log + [Acked(s.pc.sentAt, input.reply.state)];
  }

  lemma ClaimOnPace(c: Timing, s: State, input: Input)
    requires InClaim(s.pc) && CanResume(c, s, input)
    ensures OnPace(c, s, input, ResumeClaim(c, s, input))
  {
    hide Paced, OnPace, Final, LoopTop, LoopReady, ClaimIfReady, Beaten, Beat, ReadyLook, ReadyNow, Dispatch, Granting, FreshToken;
    PacedSelf(c, s);
    if s.pc.LoopBeat? || s.pc.ClaimBeat? {
      BetweenBeatOnPace(c, s, input);
    } else if input.Throw? {
      var x := s.(lock := if HoldsLock(s.pc) then Free else s.lock);
      PacedFramed(c, s, s, x);
      FinalPaced(c, s, x);
      QuietOnPace(c, s, input, Final(c, x));
    } else if s.pc.Claiming? {
      var t := ResumeClaim(c, s, input);
      PacedFramed(c, s, s, s.(lock := Free));
      PacedFramed(c, s, s, s.(active := None, lock := Free, pc := Poll));
      if input.reply.Grant? { GrantingPaced(c, s, input.reply.attempt); }
      else if !input.reply.NoJob? { DispatchPaced(c, s, s.(lock := Free), Transport(Code(input.reply))); }
      QuietOnPace(c, s, input, t);
    } else if BeatIsDue(c, s, input) {
      ReadyLookKeeps(c, s);
      BeatOnPace(c, s, input, s, LoopBeat(s.clock));
      BeatOnPace(c, s, input, ReadyLook(c, s), ClaimBeat(s.clock));
    } else {
      LoopTopPaced(c, s, s);
      LoopReadyPaced(c, s, s);
      ClaimIfReadyPaced(c, s, s);
      QuietOnPace(c, s, input, ResumeClaim(c, s, input));
    }
  }

  lemma ReadyLookKeeps(c: Timing, s: State)
    ensures var t := ReadyLook(c, s); t.log == s.log && t.clock == s.clock && t.nextBeat == s.nextBeat
  {
    hide Authorized, Supervision.Looked;
  }

  lemma BetweenBeatOnPace(c: Timing, s: State, input: Input)
    requires (s.pc.LoopBeat? || s.pc.ClaimBeat?) && CanResume(c, s, input)
    ensures OnPace(c, s, input, ResumeClaim(c, s, input))
  {
    hide Paced, OnPace, Final, LoopTop, LoopReady, ClaimIfReady, Beaten, Dispatch;
    if input.Throw? {
      var x := Deferred(c, s);
      PacedSelf(c, x);
      FinalPaced(c, x, x);
      EndedOnPace(c, s, input, x, Final(c, x));
    } else {
      var x := Beaten(c, s, s.pc.sentAt, input.reply);
      BeatenSilent(c, s, s.pc.sentAt, input.reply);
      PacedSelf(c, x);
      PacedFramed(c, x, x, x.(lock := Free));
      LoopReadyPaced(c, x, x.(lock := Free));
      DispatchPaced(c, x, x.(lock := Free), Transport(Code(input.reply)));
      ClaimIfReadyPaced(c, x, x);
      EndedOnPace(c, s, input, x, ResumeClaim(c, s, input));
    }
  }

  lemma RunOnPace(c: Timing, s: State, input: Input)
    requires InRun(s.pc) && CanResume(c, s, input)
    ensures OnPace(c, s, input, ResumeRun(c, s, input))
  {
    hide Paced, OnPace, Unwind, RunBeaten, RunLoop, Severed, Beaten, Beat, Looked, RuntimeOk;
    var a := s.pc.attempt;
    PacedSelf(c, s);
    if s.pc.RunBeat? {
      AttemptBeatOnPace(c, s, input, a);
    } else if BeatIsDue(c, s, input) {
      BeatOnPace(c, s, input, s, RunBeat(a, s.clock));
    } else {
      UnwindPaced(c, s, s, a, Thrown);
      RunBeatenPaced(c, s, s, a);
      RunLoopPaced(c, s, s, a);
      LookedPaced(c, s, s);
      UnwindPaced(c, s, Looked(c, s), a, RuntimeLost);
      PacedFramed(c, s, Looked(c, s), Looked(c, s).(pc := EndLock(a, Verdict.Failure(true))));
      QuietOnPace(c, s, input, ResumeRun(c, s, input));
    }
  }

  lemma AttemptBeatOnPace(c: Timing, s: State, input: Input, a: Attempt)
    requires (s.pc.RunBeat? || s.pc.EndBeat?) && s.pc.attempt == a && CanResume(c, s, input)
    ensures OnPace(c, s, input, Resumed(c, s, input))
  {
    hide Paced, OnPace, Unwind, RunBeaten, EndSend, Severed, Beaten;
    if input.Throw? {
      var x := Deferred(c, s);
      PacedSelf(c, x);
      UnwindPaced(c, x, x, a, Thrown);
      EndedOnPace(c, s, input, x, Unwind(c, x, a, Thrown));
    } else {
      var x := Beaten(c, s, s.pc.sentAt, input.reply);
      BeatenSilent(c, s, s.pc.sentAt, input.reply);
      PacedSelf(c, x);
      PacedFramed(c, x, x, x.(lock := Free));
      RunBeatenPaced(c, x, x.(lock := Free), a);
      SeveredPaced(c, x, x.(lock := Free), a, Code(input.reply));
      if s.pc.EndBeat? { EndSendPaced(c, x, x, a, s.pc.verdict); }
      EndedOnPace(c, s, input, x, Resumed(c, s, input));
    }
  }

  lemma WriteOnPace(c: Timing, s: State, input: Input)
    requires s.pc.EndLock? && CanResume(c, s, input)
    ensures OnPace(c, s, input, ResumeEnd(c, s, input))
  {
    hide Paced, OnPace, Unwind, EndSend, Beat;
    var a, v := s.pc.attempt, s.pc.verdict;
    PacedSelf(c, s);
    if BeatIsDue(c, s, input) {
      BeatOnPace(c, s, input, s, EndBeat(a, v, s.clock));
    } else {
      UnwindPaced(c, s, s, a, Thrown);
      EndSendPaced(c, s, s, a, v);
      QuietOnPace(c, s, input, ResumeEnd(c, s, input));
    }
  }

  lemma EndOnPace(c: Timing, s: State, input: Input)
    requires !InSetup(s.pc) && !InClaim(s.pc) && !InRun(s.pc) && !InFinal(s.pc) && !s.pc.EndLock? && !s.pc.EndBeat?
    requires CanResume(c, s, input)
    ensures OnPace(c, s, input, ResumeEnd(c, s, input))
  {
    hide Paced, OnPace, Unwind, Unhooked, Severed, Dispatch;
    var a := s.pc.attempt;
    var free := s.(lock := Free);
    PacedSelf(c, s);
    PacedFramed(c, s, s, free);
    if s.pc.Settling? {
      SettlingPaced(c, s, input);
    } else if s.pc.AskLock? || s.pc.Asking? {
      PacedNoted(c, s, s, Sent(s.clock, |s.watched|, Inspect(a)), Send(s, Inspect(a)).(pc := Asking(a), lock := Main));
      UnwindPaced(c, s, s, a, Thrown);
      UnwindPaced(c, s, free, a, Thrown);
      UnwindPaced(c, s, free, a, Finished);
      UnwindPaced(c, s, free, a, Transport(409));
      if input.Answer? { UnwindPaced(c, s, free, a, Transport(Code(input.reply))); }
    } else {
      PacedFramed(c, s, s, s.(pc := Join(a, if input.Throw? then Thrown else s.pc.why)));
      UnwindPaced(c, s, s, a, s.pc.why);
      PacedFramed(c, s, s, s.(active := None));
      DispatchPaced(c, s, s.(active := None), if input.Throw? then Thrown else s.pc.why);
    }
    QuietOnPace(c, s, input, ResumeEnd(c, s, input));
  }

  lemma SettlingPaced(c: Timing, s: State, input: Input)
    requires s.pc.Settling?
    ensures Paced(c, s, ResumeEnd(c, s, input))
  {
    hide Paced, Unwind, Severed;
    var a, free := s.pc.attempt, s.(lock := Free);
    PacedSelf(c, s);
    PacedFramed(c, s, s, free);
    UnwindPaced(c, s, free, a, Thrown);
    if input.Answer? { SeveredPaced(c, s, free, a, Code(input.reply)); }
    var done := Noted(free, Settled(a)).(active := None);
    PacedNoted(c, s, free, Settled(a), done);
    UnwindPaced(c, s, done, a, Finished);
  }

  lemma StoppingPaced(c: Timing, s: State, input: Input)
    requires s.pc.Stopping?
    ensures Paced(c, s, ResumeFinal(c, s, input))
  {
    hide Paced, Lifecycle.Next, Lifecycle.Result, Lifecycle.Ticks;
    PacedSelf(c, s);
    var t := ResumeFinal(c, s, input);
    if t.pc.OfflineLock? { PacedNoted(c, s, s, OwnedDown, t); } else { PacedFramed(c, s, s, t); }
  }

  lemma FinalOnPace(c: Timing, s: State, input: Input)
    requires InFinal(s.pc) && CanResume(c, s, input)
    ensures OnPace(c, s, input, ResumeFinal(c, s, input))
  {
    hide Paced, OnPace, Lifecycle.Next, Lifecycle.Result, Lifecycle.Ticks;
    if s.pc.Stopping? {
      StoppingPaced(c, s, input);
    } else {
      PacedSelf(c, s);
      var t := ResumeFinal(c, s, input);
      if t.pc.GoingOffline? && !s.pc.GoingOffline? { PacedNoted(c, s, s, Sent(s.clock, |s.watched|, SetOffline), t); }
      else { PacedFramed(c, s, s, t); }
    }
    QuietOnPace(c, s, input, ResumeFinal(c, s, input));
  }

  /** Every resumption of the loop, wherever it stands: the deadline moves to an interval from
      now when a heartbeat ends, answered or interrupted, and otherwise only when a call to
      Control is lost, so neither a claim nor a terminal write ever resets it; a heartbeat is
      sent exactly when one is due at a point where the loop looks, or when a Worker told to
      drain has just enrolled. */
  lemma ResumeOnPace(c: Timing, s: State, input: Input)
    requires CanResume(c, s, input)
    ensures OnPace(c, s, input, Resumed(c, s, input))
  {
    hide OnPace, CanResume, ResumeSetup, ResumeClaim, ResumeRun, ResumeEnd, ResumeFinal;
    if InSetup(s.pc) { SetupOnPace(c, s, input); }
    else if InClaim(s.pc) { ClaimOnPace(c, s, input); }
    else if InRun(s.pc) { RunOnPace(c, s, input); }
    else if InFinal(s.pc) { FinalOnPace(c, s, input); }
    else if s.pc.EndBeat? { AttemptBeatOnPace(c, s, input, s.pc.attempt); }
    else if s.pc.EndLock? { WriteOnPace(c, s, input); }
    else { EndOnPace(c, s, input); }
  }

  // ---------------------------------------------------- what the loop has to send

  /** Some run of the loop leads to the state. */
  ghost predicate Reached(c: Timing, s: State) {
    exists start, steps :: Initial(start) && Runs(c, start, steps) && After(c, start, steps) == s
  }

  lemma ReachedInv(c: Timing, s: State)
    requires c.Valid() && Reached(c, s)
    ensures Inv(c, s)
  {
    hide Inv, Initial, Runs, After;
    var start, steps :| Initial(start) && Runs(c, start, steps) && After(c, start, steps) == s;
    RunIsSound(c, start, steps);
  }

  /** A drain is reported at once: as soon as it has the control lock it sends one heartbeat,
      exactly when Control counts the Worker as enrolled and the Worker is not stopping. */
  lemma DrainIsReported(c: Timing, s: State, now: real)
    requires c.Valid() && Reached(c, s) && CanStep(c, s, DrainGo(now))
    ensures var t := Next(c, s, DrainGo(now));
            if Enlisted(s.log) && !s.stop then
              && t.lock == Drain(now) && |t.log| == |s.log| + 1 && t.log[..|s.log|] == s.log && IsBeat(t.log[|s.log|])
              && t.log[|s.log|].at == now && t.log[|s.log|].message.active == s.active
            else t.log == s.log && t.lock == s.lock
    ensures Next(c, s, DrainGo(now)).nextBeat == s.nextBeat
  {
    ReachedInv(c, s);
    StoppedOrListed(c, s);
    hide Inv, Enlisted, Promotion;
  }

  lemma StoppedOrListed(c: Timing, s: State)
    requires Inv(c, s)
    ensures s.stop || (s.registered <==> Enlisted(s.log))
  {
    hide Core, AttemptKnown, Enlisted;
  }

  /** The end of a drain's heartbeat moves the deadline like that of any other. */
  lemma DrainMovesDeadline(c: Timing, s: State, step: Step)
    requires CanStep(c, s, step) && !step.Resume? && !step.DrainGo?
    ensures var t := Next(c, s, step);
            Silent(s.log, t.log)
            && t.nextBeat == if step.DrainAnswer? || step.DrainThrow? then step.now + c.interval else s.nextBeat
  {
    hide CanResume, Beaten, Noted, Supervision.CanStep, Supervision.Next;
    var at := s.(clock := Time(step));
    if step.DrainAnswer? { BeatenSilent(c, at, s.lock.sentAt, step.reply); }
    NotedSilent(at, DrainIntent);
    if step.Finish? { NotedSilent(at, Ended(step.attempt, step.ending)); }
  }

  lemma NotedSilent(s: State, n: Note)
    requires !IsBeat(n)
    ensures Silent(s.log, Noted(s, n).log) && Noted(s, n).nextBeat == s.nextBeat
  {
  }

  /** Leaving the loop, the Worker releases itself exactly when Control counts it as enrolled. */
  lemma ReleaseIsSent(c: Timing, s: State, now: real)
    requires c.Valid() && Reached(c, s) && s.pc.OfflineLock? && CanStep(c, s, Resume(now, Go))
    ensures var t := Next(c, s, Resume(now, Go));
            t.log == if Enlisted(s.log) then s.log + [Sent(now, |s.watched|, SetOffline)] else s.log
  {
    ReachedInv(c, s);
    assert Listed(s) by { hide Core, AttemptKnown, Enlisted; }
    hide Inv, Enlisted;
  }

  /** The supervisor's own steps say that the runtime is available. */
  ghost predicate RuntimeHealthy(c: Timing, watched: seq<Supervision.Step>, now: real) {
    c.managed ==>
      && Supervision.AllHarmless(c.policy, watched)
      && Supervision.LeaseEnd(c.policy, watched).Some? && now < Supervision.LeaseEnd(c.policy, watched).value
  }

  lemma HealthyIsReady(c: Timing, s: State, now: real)
    requires c.Valid() && Inv(c, s) && !InFinal(s.pc) && s.clock <= now
    requires Enlisted(s.log) && DrainIntent !in s.log && Backed(c, s.log, now, true) && RuntimeHealthy(c, s.watched, now)
    ensures !s.stop && ReadyNow(c, s.(clock := now))
  {
    assert Core(c, s) && Informed(c, s) by { hide AttemptKnown, LeavesClean; }
    hide Inv, Enlisted, Sound, Supervision.Explained, Supervision.AllHarmless, Supervision.LeaseEnd;
    var k: nat :| LastAck(s.log, k) && now < s.log[k].sentAt + c.interval + c.timeout && s.log[k].state.Online?;
    assert LastWord(c, s, k);
    if c.managed { HealthySupervisor(c, s, now); }
  }

  lemma HealthySupervisor(c: Timing, s: State, now: real)
    requires c.managed && Supervised(c, s) && !s.sup.closed && s.clock <= now && RuntimeHealthy(c, s.watched, now)
    ensures !s.sup.failed && Supervision.Available(s.sup.(clock := now))
  {
    hide Supervision.Explained, Supervision.AllHarmless, Supervision.LeaseEnd, Supervision.Broken;
    Supervision.TrackedAvailable(c.policy, s.watched, s.sup, now);
  }

  /** An enrolled Worker that was never told to drain, under an ONLINE acknowledgement that has
      not lapsed and with a healthy runtime, asks for work: unless a heartbeat is due first, the
      next two turns of its loop send a claim, and nothing else. */
  lemma ReadyWorkerClaims(c: Timing, s: State, now: real)
    requires c.Valid() && Reached(c, s) && s.pc.LoopLock? && s.lock.Free? && s.clock <= now < s.nextBeat
    requires Enlisted(s.log) && DrainIntent !in s.log && Backed(c, s.log, now, true) && RuntimeHealthy(c, s.watched, now)
    ensures CanStep(c, s, Resume(now, Go)) && CanStep(c, Next(c, s, Resume(now, Go)), Resume(now, Go))
    ensures var t := Next(c, Next(c, s, Resume(now, Go)), Resume(now, Go));
            t.pc.Claiming? && |t.log| == |s.log| + 1 && t.log[..|s.log|] == s.log
            && t.log[|s.log|].Sent? && t.log[|s.log|].message.Claim? && t.log[|s.log|].at == now
  {
    ReachedInv(c, s);
    HealthyIsReady(c, s, now);
    hide Inv, Enlisted, Backed, RuntimeHealthy;
    TwoTurns(c, s.(clock := now));
  }

  lemma TwoTurns(c: Timing, s: State)
    requires s.pc.LoopLock? && s.clock < s.nextBeat && ReadyNow(c, s)
    ensures var t := ResumeClaim(c, s, Go);
            t.pc.ClaimLock? && t.lock == s.lock && t.clock == s.clock && t.log == s.log
    ensures var u := ResumeClaim(c, ResumeClaim(c, s, Go), Go);
            u.pc.Claiming? && exists seen :: u.log == s.log + [Sent(s.clock, seen, Claim)]
  {
    LookedStaysReady(c, s);
    hide ReadyNow, ReadyLook, LoopTop;
    var t := ResumeClaim(c, s, Go);
    ReadyLookKeeps(c, t);
    ReadyLookKeeps(c, s);
    assert ResumeClaim(c, t, Go).log == s.log + [Sent(s.clock, |ReadyLook(c, t).watched|, Claim)];
  }

  /** Looking at an available runtime changes nothing that readiness depends on. */
  lemma LookedStaysReady(c: Timing, s: State)
    requires ReadyNow(c, s)
    ensures ReadyNow(c, ReadyLook(c, s).(pc := ClaimLock))
  {
  }

  /** A refused heartbeat or terminal write inside an attempt makes the Worker ask Control about
      the job exactly when the refusal is a conflict. */
  lemma ConflictIsAsked(c: Timing, s: State, reply: Reply)
    requires s.pc.RunBeat? || s.pc.EndBeat? || s.pc.Settling?
    requires CanResume(c, s, Answer(reply)) && !reply.Ack? && !reply.Accepted?
    ensures Resumed(c, s, Answer(reply)).pc == AskLock(s.pc.attempt) <==> reply == Refused(409)
  {
    hide Dispatch, RunBeaten, EndSend;
    var x := if s.pc.Settling? then s else Beaten(c, s, s.pc.sentAt, reply);
    UnwindNeverAsks(c, Lost(c, x.(lock := Free), Code(reply)), s.pc.attempt, Transport(Code(reply)));
    hide Unwind;
  }

  lemma UnwindNeverAsks(c: Timing, s: State, a: Attempt, why: Why)
    ensures !Unwind(c, s, a, why).pc.AskLock?
  {
  }

  lemma DispatchLoses(c: Timing, x: State, why: Why)
    requires why.Finished? || why.Transport?
    ensures var t := Dispatch(c, x, why);
            t.active == x.active && (Loses(x.log, t.log) <==> why.Transport?) && (t.pc.Poll? <==> why.Transport?)
  {
    if why.Transport? { assert Dispatch(c, x, why).log[|x.log|].ControlLost?; }
  }

  lemma AskAnswered(c: Timing, s: State, cancelled: bool)
    requires s.pc.Asking?
    ensures CanResume(c, s, Answer(JobStatus(cancelled)))
    ensures Resumed(c, s, Answer(JobStatus(cancelled)))
            == Unwind(c, s.(lock := Free), s.pc.attempt, if cancelled then Finished else Transport(409))
  {
    hide Unwind;
  }

  /** The cleanup of an attempt whose task has ended, behind the health watcher if there is one. */
  function CleanedUp(c: Timing, t: State): State {
    if c.managed then Resumed(c, t, Go) else t
  }

  lemma CleanupLeads(c: Timing, x: State, a: Attempt, why: Why) returns (y: State)
    requires a !in x.live
    ensures y.log == x.log && y.active.None? && CleanedUp(c, Unwind(c, x, a, why)) == Dispatch(c, y, why)
  {
    hide Dispatch;
    y := if c.managed then x.(pc := Waiter(a, why), active := None) else x.(active := None);
  }

  /** An attempt whose task has ended: when Control says that the job was cancelled the attempt is
      over quietly, otherwise the conflict counts as a lost call. */
  lemma CancelledIsOver(c: Timing, s: State, cancelled: bool)
    requires s.pc.Asking? && s.pc.attempt !in s.live
    ensures CanResume(c, s, Answer(JobStatus(cancelled)))
    ensures var u := CleanedUp(c, Resumed(c, s, Answer(JobStatus(cancelled))));
            u.active.None? && (Loses(s.log, u.log) <==> !cancelled) && (u.pc.Poll? <==> !cancelled)
  {
    hide Dispatch, Unwind, CleanedUp, Resumed, CanResume, Loses;
    var why := if cancelled then Finished else Transport(409);
    AskAnswered(c, s, cancelled);
    var y := CleanupLeads(c, s.(lock := Free), s.pc.attempt, why);
    DispatchLoses(c, y, why);
  }

  /** Losing the runtime never ends the Worker: the attempt is dropped without a word to Control,
      and the loop goes on. */
  lemma RuntimeLossPauses(c: Timing, s: State, input: Input)
    requires CanResume(c, s, input) && !RuntimeOk(c, s) && !InFinal(s.pc)
    requires s.pc.RunWait? || s.pc.Check? || (s.pc.EndLock? && !Due(s)) || (s.pc.Claiming? && input.Answer? && input.reply.Grant?)
    requires !input.Throw?
    ensures var t := Resumed(c, s, input);
            && (t.pc.Poll? || ((t.pc.Hook? || t.pc.Waiter?) && t.pc.why.RuntimeLost?))
            && (forall i :: |s.log| <= i < |t.log| ==> !t.log[i].Sent? && !t.log[i].Started?)
  {
    hide Supervision.Looked, Supervision.Available, Final, LoopTop, Lost, Beat, Severed;
  }

  /** And once the cleanup of that attempt is over, the loop goes on. */
  lemma LossIsCleanedUp(c: Timing, s: State)
    requires s.pc.Hook? || s.pc.Join? || s.pc.Waiter?
    requires s.pc.why.RuntimeLost?
    ensures var t := Resumed(c, s, Go);
            t.log == s.log && (t.pc.Poll? || ((t.pc.Join? || t.pc.Waiter?) && t.pc.why.RuntimeLost?))
    ensures s.pc.Waiter? ==> Resumed(c, s, Go).pc.Poll? && Resumed(c, s, Go).active.None?
  {
  }

  /** An execution that was cancelled, or left no ending, ends the Worker without a result: the
      loop is left at once, or behind the health watcher of a managed Worker. */
  lemma CancelledExecutionEnds(c: Timing, s: State)
    requires s.pc.RunWait? && s.pc.attempt !in s.live && RuntimeOk(c, s)
    requires s.pc.attempt !in s.endings || s.endings[s.pc.attempt].Cancelled?
    ensures var u := CleanedUp(c, Resumed(c, s, Go));
            InFinal(u.pc) && u.stop && u.active.None? && u.validUntil == 0.0 && u.log == s.log + [DrainIntent]
  {
    hide Dispatch, Unwind, CleanedUp, Looked, RuntimeOk;
    LookedKeepsTasks(c, s);
    assert Resumed(c, s, Go) == Unwind(c, Looked(c, s), s.pc.attempt, Thrown);
    var y := CleanupLeads(c, Looked(c, s), s.pc.attempt, Thrown);
    ThrownIsFinal(c, y);
  }

  lemma LookedKeepsTasks(c: Timing, s: State)
    ensures Looked(c, s).live == s.live && Looked(c, s).log == s.log
  {
    hide Supervision.Looked;
  }

  lemma ThrownIsFinal(c: Timing, y: State)
    ensures var u := Dispatch(c, y, Thrown);
            InFinal(u.pc) && u.stop && u.active == y.active && u.validUntil == 0.0 && u.log == y.log + [DrainIntent]
  {
  }

  /** Whatever Control answers to the release, the Worker is done and no longer enrolled. */
  lemma ReleaseEnds(c: Timing, s: State, reply: Reply)
    requires s.pc.GoingOffline?
    ensures var t := Resumed(c, s, Answer(reply)); t.pc.Done? && !t.registered && t.lock.Free? && t.log == s.log
  {
  }
}
