/** What becomes of a lease token after the terminal write: which replies leave a heartbeat
    able to present it, and which do not, in any continuation. */
module WorkerLoopTokens {
  import opened Contracts
  import opened WorkerLoop
  import opened WorkerLoopInvariant
  import opened WorkerLoopSteps
  import opened WorkerLoopSafety
  import Lifecycle
  import Supervision

  predicate Shows(n: Note, token: string) {
    IsBeat(n) && n.message.active.Some? && n.message.active.value.token == token
  }

  // ------------------------------------------------- one step and the active attempt

  /** `log` is `past` with more entries, and every heartbeat among them carries `active`. */
  predicate Continues(past: seq<Note>, log: seq<Note>, active: Option<Attempt>) {
    past <= log && forall i :: |past| <= i < |log| && IsBeat(log[i]) ==> log[i].message.active == active
  }

  lemma ContinuesNoted(past: seq<Note>, log: seq<Note>, active: Option<Attempt>, n: Note)
    requires Continues(past, log, active) && (IsBeat(n) ==> n.message.active == active)
    ensures Continues(past, log + [n], active)
  {
  }

  /** Points of an attempt at which its token is the active one. */
  predicate Busy(pc: Pc) {
    BeforeWrite(pc) || pc.Settling? || pc.AskLock? || pc.Asking?
  }

  predicate Armed(s: State) {
    Busy(s.pc) ==> s.active == Some(s.pc.attempt)
  }

  /** The active attempt is kept, forgotten, or newly granted. */
  predicate Succeeds(s: State, t: State) {
    t.active == s.active || t.active.None?
    || (FreshToken(s.log, t.active.value) && Granted(t.active.value) in t.log)
  }

  predicate Kept(s: State, t: State) {
    Continues(s.log, t.log, s.active) && Succeeds(s, t)
  }

  predicate Moves(s: State, t: State) {
    Kept(s, t) && Armed(t)
  }

  lemma KeptFramed(s: State, x: State, t: State)
    requires Kept(s, x) && t.log == x.log && (t.active == x.active || t.active.None?)
    ensures Kept(s, t)
  {
  }

  lemma KeptNoted(s: State, x: State, n: Note, t: State)
    requires Kept(s, x) && (IsBeat(n) ==> n.message.active == s.active)
    requires t.log == x.log + [n] && t.active == x.active
    ensures Kept(s, t)
  {
    ContinuesNoted(s.log, x.log, s.active, n);
    hide Continues;
  }

  lemma KeptSelf(s: State)
    ensures Kept(s, s)
  {
  }

  lemma FinalKept(c: Timing, s: State, x: State)
    requires Kept(s, x)
    ensures Kept(s, Final(c, x)) && !Busy(Final(c, x).pc)
  {
    hide Kept;
    KeptNoted(s, x, DrainIntent, Final(c, x));
  }

  lemma LostKept(c: Timing, s: State, x: State, status: nat)
    requires Kept(s, x)
    ensures Kept(s, Lost(c, x, status)) && Lost(c, x, status).active == x.active
  {
    hide Kept;
    KeptNoted(s, x, ControlLost(status), Lost(c, x, status));
  }

  lemma BeatenKept(c: Timing, s: State, x: State, sentAt: real, r: Reply)
    requires Kept(s, x)
    ensures var t := Beaten(c, x, sentAt, r); Kept(s, t) && t.active == x.active && t.pc == x.pc
  {
    hide Kept;
    KeptNoted(s, x, if r.Ack? then Acked(sentAt, r.state) else ControlLost(Code(r)), Beaten(c, x, sentAt, r));
  }

  lemma BeatKept(c: Timing, s: State, x: State)
    requires Kept(s, x) && x.active == s.active
    ensures Kept(s, Beat(c, x)) && Beat(c, x).active == x.active
  {
    hide Kept, Promotion;
    KeptNoted(s, x, Sent(x.clock, |x.watched|, Heartbeat(x.active, Promotion(c, x))), Beat(c, x));
  }

  lemma LookedKept(c: Timing, s: State, x: State)
    requires Kept(s, x)
    ensures var t := Looked(c, x); Kept(s, t) && t.active == x.active && t.pc == x.pc && t.log == x.log
    ensures var t := ReadyLook(c, x); Kept(s, t) && t.active == x.active && t.pc == x.pc && t.log == x.log
  {
    hide Kept, Authorized, Supervision.Looked;
    KeptFramed(s, x, Looked(c, x));
  }

  lemma LoopTopKept(c: Timing, s: State, x: State)
    requires Kept(s, x)
    ensures Kept(s, LoopTop(c, x)) && !Busy(LoopTop(c, x).pc)
  {
    hide Kept, Final;
    if x.stop { FinalKept(c, s, x); } else { KeptFramed(s, x, x.(pc := LoopLock)); }
  }

  lemma DispatchKept(c: Timing, s: State, x: State, why: Why)
    requires Kept(s, x)
    ensures Kept(s, Dispatch(c, x, why)) && !Busy(Dispatch(c, x, why).pc)
  {
    hide Kept, Final, LoopTop, Lost;
    match why
    case Finished => LoopTopKept(c, s, x);
    case RuntimeLost => KeptFramed(s, x, x.(pc := Poll));
    case Transport(status) =>
      LostKept(c, s, x, status);
      KeptFramed(s, Lost(c, x, status), Lost(c, x, status).(pc := Poll));
    case Thrown => FinalKept(c, s, x);
  }

  lemma LoopReadyKept(c: Timing, s: State, x: State)
    requires Kept(s, x)
    ensures Kept(s, LoopReady(c, x)) && !Busy(LoopReady(c, x).pc)
  {
    hide Kept, ReadyLook, ReadyNow;
    LookedKept(c, s, x);
    KeptFramed(s, ReadyLook(c, x), LoopReady(c, x));
  }

  lemma ClaimIfReadyKept(c: Timing, s: State, x: State)
    requires Kept(s, x)
    ensures Kept(s, ClaimIfReady(c, x)) && !Busy(ClaimIfReady(c, x).pc)
  {
    hide Kept, ReadyLook, ReadyNow, LoopTop;
    LookedKept(c, s, x);
    var look := ReadyLook(c, x);
    if ReadyNow(c, x) {
      KeptNoted(s, look, Sent(look.clock, |look.watched|, Claim), ClaimIfReady(c, x));
    } else {
      KeptFramed(s, look, look.(lock := Free));
      LoopTopKept(c, s, look.(lock := Free));
    }
  }

  lemma UnwindKept(c: Timing, s: State, x: State, a: Attempt, why: Why)
    requires Kept(s, x)
    ensures Kept(s, Unwind(c, x, a, why)) && !Busy(Unwind(c, x, a, why).pc)
    ensures Kept(s, Unhooked(c, x, a, why)) && !Busy(Unhooked(c, x, a, why).pc)
  {
    hide Kept, Dispatch;
    KeptFramed(s, x, x.(pc := Hook(a, why)));
    KeptFramed(s, x, x.(pc := Waiter(a, why)));
    KeptFramed(s, x, x.(active := None));
    DispatchKept(c, s, x.(active := None), why);
  }

  lemma SeveredKept(c: Timing, s: State, x: State, a: Attempt, status: nat)
    requires Kept(s, x) && x.active == Some(a)
    ensures Moves(s, Severed(c, x, a, status))
  {
    hide Kept, Unwind, Lost;
    LostKept(c, s, x, status);
    var t := Lost(c, x, status);
    if status == 409 { KeptFramed(s, t, t.(pc := AskLock(a))); } else { UnwindKept(c, s, t, a, Transport(status)); }
  }

  lemma RunBeatenKept(c: Timing, s: State, x: State, a: Attempt)
    requires Kept(s, x) && x.active == Some(a)
    ensures Moves(s, RunBeaten(c, x, a))
  {
    hide Kept, Unwind, Looked, RuntimeOk;
    LookedKept(c, s, x);
    var t := Looked(c, x);
    KeptFramed(s, t, t.(pc := RunWait(a)));
    UnwindKept(c, s, t, a, RuntimeLost);
  }

  lemma RunEndedKept(c: Timing, s: State, x: State, a: Attempt)
    requires Kept(s, x) && x.active == Some(a)
    ensures Moves(s, RunEnded(c, x, a))
  {
    hide Kept, Unwind, Looked, RuntimeOk;
    LookedKept(c, s, x);
    var t := Looked(c, x);
    UnwindKept(c, s, t, a, RuntimeLost);
    UnwindKept(c, s, t, a, Thrown);
    if RuntimeOk(c, x) && a in x.endings && !x.endings[a].Cancelled? {
      if x.endings[a].Raised? && c.managed {
        KeptNoted(s, t, Rechecking(a, |t.watched|), RunEnded(c, x, a));
      } else {
        KeptFramed(s, t, RunEnded(c, x, a));
      }
    }
  }

  lemma RunLoopKept(c: Timing, s: State, x: State, a: Attempt)
    requires Kept(s, x) && x.active == Some(a)
    ensures Moves(s, RunLoop(c, x, a))
  {
    hide Kept, Unwind, Looked, RuntimeOk, RunEnded;
    RunEndedKept(c, s, x, a);
    LookedKept(c, s, x);
    var t := Looked(c, x);
    UnwindKept(c, s, t, a, RuntimeLost);
    KeptFramed(s, t, t.(pc := RunLock(a)));
  }

  lemma EndSendKept(c: Timing, s: State, x: State, a: Attempt, v: Verdict)
    requires Kept(s, x) && x.active == Some(a)
    ensures Moves(s, EndSend(c, x, a, v))
  {
    hide Kept, Unwind, Severed, Looked, RuntimeOk;
    LookedKept(c, s, x);
    var t := Looked(c, x);
    KeptFramed(s, t, t.(lock := Free));
    UnwindKept(c, s, t.(lock := Free), a, RuntimeLost);
    SeveredKept(c, s, t.(lock := Free), a, 0);
    KeptNoted(s, t, Sent(t.clock, |t.watched|, Settle(a, v)), Send(t, Settle(a, v)).(pc := Settling(a), lock := Main));
  }

  lemma GrantKept(s: State, a: Attempt, t: State)
    requires FreshToken(s.log, a) && t.log == s.log + [Granted(a)] && t.active == Some(a)
    ensures Kept(s, t)
  {
    assert t.log[|s.log|] == Granted(a);
  }

  lemma GrantingKept(c: Timing, s: State, a: Attempt)
    requires FreshToken(s.log, a)
    ensures Moves(s, Granting(c, s, a))
  {
    hide Kept, Dispatch, Looked, RuntimeOk, FreshToken;
    var t := Noted(s, Granted(a)).(active := Some(a), lock := Free);
    GrantKept(s, a, t);
    LookedKept(c, s, t);
    var u := Looked(c, t);
    KeptFramed(s, u, u.(active := None));
    DispatchKept(c, s, u.(active := None), RuntimeLost);
    if RuntimeOk(c, t) { KeptNoted(s, u, Started(a), Granting(c, s, a)); }
  }

  lemma SetupMoves(c: Timing, s: State, input: Input)
    requires InSetup(s.pc)
    ensures Moves(s, ResumeSetup(c, s, input))
  {
    hide Kept, Final, LoopTop, Beaten, Lost, Beat, Looked, RuntimeOk, Armed;
    KeptSelf(s);
    if input.Throw? {
      var x := s.(lock := if HoldsLock(s.pc) then Free else s.lock);
      KeptFramed(s, s, x);
      FinalPlaced(c, s, x);
    } else if s.pc.Boot? || s.pc.Asleep? || s.pc.Starting? {
      StartingMoves(c, s, input);
    } else if s.pc.RegisterLock? {
      KeptNoted(s, s, Sent(s.clock, |s.watched|, Register), ResumeSetup(c, s, input));
      ArmedOutside(ResumeSetup(c, s, input));
    } else {
      RegisteringMoves(c, s, input);
    }
  }

  lemma ArmedOutside(t: State)
    requires !Busy(t.pc)
    ensures Armed(t)
  {
  }

  lemma FinalPlaced(c: Timing, s: State, x: State)
    requires Kept(s, x)
    ensures Moves(s, Final(c, x))
  {
    hide Kept, Final;
    FinalKept(c, s, x);
  }

  lemma LoopTopPlaced(c: Timing, s: State, x: State)
    requires Kept(s, x)
    ensures Moves(s, LoopTop(c, x))
  {
    hide Kept, LoopTop;
    LoopTopKept(c, s, x);
  }

  lemma StartingMoves(c: Timing, s: State, input: Input)
    requires !input.Throw? && (s.pc.Boot? || s.pc.Asleep? || s.pc.Starting?)
    ensures Moves(s, ResumeSetup(c, s, input))
  {
    hide Kept, Final, Looked, RuntimeOk;
    KeptSelf(s);
    FinalPlaced(c, s, s);
    LookedKept(c, s, s);
    var t := ResumeSetup(c, s, input);
    if s.pc.Starting? { KeptFramed(s, Looked(c, s), t); }
    if s.pc.Boot? && !s.stop { KeptFramed(s, s, t); }
  }

  lemma RegisteringMoves(c: Timing, s: State, input: Input)
    requires !input.Throw? && (s.pc.Registering? || s.pc.RegisterBeat?)
    ensures Moves(s, ResumeSetup(c, s, input))
  {
    hide Kept, Final, LoopTop, Lost, Beat, Armed;
    KeptSelf(s);
    var code := if input.Answer? then Code(input.reply) else 502;
    LostKept(c, s, s, code);
    KeptFramed(s, Lost(c, s, code), Lost(c, s, code).(lock := Free));
    FinalPlaced(c, s, Lost(c, s, code).(lock := Free));
    if input.Answer? && input.reply.Ack? {
      EnrolledMoves(c, s, s.pc.sentAt, input.reply.state);
    }
  }

  lemma EnrolledMoves(c: Timing, s: State, sentAt: real, state: WorkerState)
    ensures var t := Acknowledged(c, s, sentAt, state).(nextBeat := s.clock + c.interval);
            && Moves(s, LoopTop(c, t.(lock := Free)))
            && Moves(s, Beat(c, t).(pc := RegisterBeat(s.clock)))
            && Moves(s, LoopTop(c, Beaten(c, s, sentAt, Ack(state)).(lock := Free)))
  {
    hide Kept, LoopTop, Promotion;
    KeptSelf(s);
    var t := Acknowledged(c, s, sentAt, state).(nextBeat := s.clock + c.interval);
    BeatenKept(c, s, s, sentAt, Ack(state));
    KeptFramed(s, t, t.(lock := Free));
    LoopTopPlaced(c, s, t.(lock := Free));
    BeatKept(c, s, t);
    KeptFramed(s, Beat(c, t), Beat(c, t).(pc := RegisterBeat(s.clock)));
  }

  lemma DispatchPlaced(c: Timing, s: State, x: State, why: Why)
    requires Kept(s, x)
    ensures Moves(s, Dispatch(c, x, why))
  {
    hide Kept, Dispatch;
    DispatchKept(c, s, x, why);
  }

  lemma ClaimBeaten(c: Timing, s: State, x: State)
    requires Kept(s, x) && x.active == s.active
    ensures Moves(s, Beat(c, x).(pc := LoopBeat(s.clock), lock := Main))
    ensures Moves(s, Beat(c, x).(pc := ClaimBeat(s.clock), lock := Main))
  {
    hide Kept, Beat;
    BeatKept(c, s, x);
    KeptFramed(s, Beat(c, x), Beat(c, x).(pc := LoopBeat(s.clock), lock := Main));
    KeptFramed(s, Beat(c, x), Beat(c, x).(pc := ClaimBeat(s.clock), lock := Main));
  }

  lemma LoopPlaced(c: Timing, s: State, x: State)
    requires Kept(s, x)
    ensures Moves(s, LoopReady(c, x)) && Moves(s, ClaimIfReady(c, x))
  {
    hide Kept, LoopReady, ClaimIfReady;
    LoopReadyKept(c, s, x);
    ClaimIfReadyKept(c, s, x);
  }

  lemma ClaimMoves(c: Timing, s: State, input: Input)
    requires InClaim(s.pc) && CanResume(c, s, input)
    ensures Moves(s, ResumeClaim(c, s, input))
  {
    hide Moves, Final, LoopTop, LoopReady, ClaimIfReady, Beaten, Beat, ReadyLook, ReadyNow, Dispatch, Granting, FreshToken, Deferred;
    KeptSelf(s);
    if input.Throw? {
      ClaimThrown(c, s);
    } else if s.pc.LoopBeat? || s.pc.ClaimBeat? {
      if input.Answer? {
        var t := Beaten(c, s, s.pc.sentAt, input.reply);
        BeatenKept(c, s, s, s.pc.sentAt, input.reply);
        KeptFramed(s, t, t.(lock := Free));
        LoopPlaced(c, s, t);
        LoopPlaced(c, s, t.(lock := Free));
        DispatchPlaced(c, s, t.(lock := Free), Transport(Code(input.reply)));
      }
    } else if s.pc.Claiming? {
      ClaimingMoves(c, s, input);
    } else {
      ClaimBeaten(c, s, s);
      LookedKept(c, s, s);
      ClaimBeaten(c, s, ReadyLook(c, s));
      LoopPlaced(c, s, s);
      LoopTopPlaced(c, s, s);
    }
  }

  lemma ClaimThrown(c: Timing, s: State)
    ensures Moves(s, Final(c, Deferred(c, s)))
    ensures Moves(s, Final(c, s.(lock := if HoldsLock(s.pc) then Free else s.lock)))
  {
    hide Moves, Kept, Final;
    var x := s.(lock := if HoldsLock(s.pc) then Free else s.lock);
    KeptSelf(s);
    KeptFramed(s, s, Deferred(c, s));
    KeptFramed(s, s, x);
    FinalPlaced(c, s, Deferred(c, s));
    FinalPlaced(c, s, x);
  }

  lemma ClaimingMoves(c: Timing, s: State, input: Input)
    requires s.pc.Claiming? && input.Answer? && CanResume(c, s, input)
    ensures Moves(s, ResumeClaim(c, s, input))
  {
    hide Kept, Granting, Dispatch, FreshToken, Armed;
    KeptSelf(s);
    if input.reply.Grant? {
      GrantingKept(c, s, input.reply.attempt);
    } else if input.reply.NoJob? {
      KeptFramed(s, s, ResumeClaim(c, s, input));
      ArmedOutside(ResumeClaim(c, s, input));
    } else {
      KeptFramed(s, s, s.(lock := Free));
      DispatchPlaced(c, s, s.(lock := Free), Transport(Code(input.reply)));
    }
  }

  lemma UnwindPlaced(c: Timing, s: State, x: State, a: Attempt, why: Why)
    requires Kept(s, x)
    ensures Moves(s, Unwind(c, x, a, why)) && Moves(s, Unhooked(c, x, a, why))
  {
    hide Kept, Unwind, Unhooked;
    UnwindKept(c, s, x, a, why);
  }

  /** A heartbeat of the attempt itself. */
  lemma AttemptBeats(c: Timing, s: State, pc: Pc)
    requires Busy(pc) && s.active == Some(pc.attempt)
    ensures Moves(s, Beat(c, s).(pc := pc, lock := Main))
  {
    hide Kept, Beat;
    KeptSelf(s);
    BeatKept(c, s, s);
    KeptFramed(s, Beat(c, s), Beat(c, s).(pc := pc, lock := Main));
  }

  lemma RunBeatMoves(c: Timing, s: State, input: Input, a: Attempt)
    requires s.pc.RunBeat? && s.pc.attempt == a && s.active == Some(a)
    ensures Moves(s, ResumeRun(c, s, input))
  {
    hide Moves, Unwind, RunBeaten, RunLoop, Severed, Beaten, Beat, Looked, RuntimeOk, Deferred;
    KeptSelf(s);
    if input.Answer? {
      var t := Beaten(c, s, s.pc.sentAt, input.reply);
      BeatenKept(c, s, s, s.pc.sentAt, input.reply);
      KeptFramed(s, t, t.(lock := Free));
      RunBeatenKept(c, s, t.(lock := Free), a);
      SeveredKept(c, s, t.(lock := Free), a, Code(input.reply));
    } else {
      DeferredUnwinds(c, s, a);
    }
  }

  lemma RunMoves(c: Timing, s: State, input: Input)
    requires InRun(s.pc) && CanResume(c, s, input) && Armed(s)
    ensures Moves(s, ResumeRun(c, s, input))
  {
    var a := s.pc.attempt;
    assert s.active == Some(a);
    hide Moves, Kept, Unwind, RunBeaten, RunLoop, Severed, Beaten, Beat, Looked, RuntimeOk, Deferred;
    KeptSelf(s);
    UnwindPlaced(c, s, s, a, Thrown);
    if s.pc.RunLock? {
      AttemptBeats(c, s, RunBeat(a, s.clock));
      RunBeatenKept(c, s, s, a);
    } else if s.pc.RunBeat? {
      RunBeatMoves(c, s, input, a);
    } else if s.pc.RunWait? {
      RunLoopKept(c, s, s, a);
    } else {
      LookedKept(c, s, s);
      UnwindPlaced(c, s, Looked(c, s), a, RuntimeLost);
      Placed(s, Looked(c, s), EndLock(a, Verdict.Failure(true)));
    }
  }

  lemma Placed(s: State, x: State, pc: Pc)
    requires Kept(s, x) && Busy(pc) && x.active == Some(pc.attempt)
    ensures Moves(s, x.(pc := pc))
  {
    hide Kept;
    KeptFramed(s, x, x.(pc := pc));
  }

  lemma DeferredUnwinds(c: Timing, s: State, a: Attempt)
    ensures Moves(s, Unwind(c, Deferred(c, s), a, Thrown))
  {
    hide Kept, Moves, Unwind;
    KeptSelf(s);
    KeptFramed(s, s, Deferred(c, s));
    UnwindPlaced(c, s, Deferred(c, s), a, Thrown);
  }

  lemma WriteMoves(c: Timing, s: State, input: Input)
    requires (s.pc.EndLock? || s.pc.EndBeat?) && CanResume(c, s, input) && Armed(s)
    ensures Moves(s, ResumeEnd(c, s, input))
  {
    var a, v := s.pc.attempt, s.pc.verdict;
    assert s.active == Some(a);
    hide Moves, Unwind, EndSend, Severed, Beaten, Beat, Deferred;
    KeptSelf(s);
    if s.pc.EndLock? {
      UnwindPlaced(c, s, s, a, Thrown);
      AttemptBeats(c, s, EndBeat(a, v, s.clock));
      EndSendKept(c, s, s, a, v);
    } else if input.Answer? {
      var t := Beaten(c, s, s.pc.sentAt, input.reply);
      BeatenKept(c, s, s, s.pc.sentAt, input.reply);
      KeptFramed(s, t, t.(lock := Free));
      EndSendKept(c, s, t, a, v);
      SeveredKept(c, s, t.(lock := Free), a, Code(input.reply));
    } else {
      DeferredUnwinds(c, s, a);
    }
  }

  lemma ReplyMoves(c: Timing, s: State, input: Input)
    requires (s.pc.Settling? || s.pc.AskLock? || s.pc.Asking?) && CanResume(c, s, input) && Armed(s)
    ensures Moves(s, ResumeEnd(c, s, input))
  {
    var a := s.pc.attempt;
    assert s.active == Some(a);
    hide Moves, Kept, Unwind, Severed;
    KeptSelf(s);
    var t := s.(lock := Free);
    KeptFramed(s, s, t);
    UnwindPlaced(c, s, t, a, Thrown);
    if s.pc.AskLock? {
      UnwindPlaced(c, s, s, a, Thrown);
      KeptNoted(s, s, Sent(s.clock, |s.watched|, Inspect(a)), Send(s, Inspect(a)));
      KeptFramed(s, Send(s, Inspect(a)), Send(s, Inspect(a)).(lock := Main));
      Placed(s, Send(s, Inspect(a)).(lock := Main), Asking(a));
    } else if s.pc.Settling? && input.Answer? {
      KeptNoted(s, t, Settled(a), Noted(t, Settled(a)));
      KeptFramed(s, Noted(t, Settled(a)), Noted(t, Settled(a)).(active := None));
      UnwindPlaced(c, s, Noted(t, Settled(a)).(active := None), a, Finished);
      SeveredKept(c, s, t, a, Code(input.reply));
    } else if input.Answer? {
      UnwindPlaced(c, s, t, a, Finished);
      UnwindPlaced(c, s, t, a, Transport(409));
      UnwindPlaced(c, s, t, a, Transport(Code(input.reply)));
    }
  }

  lemma CleanupMoves(c: Timing, s: State, input: Input)
    requires s.pc.Hook? || s.pc.Join? || s.pc.Waiter?
    ensures Moves(s, ResumeEnd(c, s, input))
  {
    hide Kept, Unhooked, Dispatch, Armed;
    var a, why := s.pc.attempt, s.pc.why;
    KeptSelf(s);
    if s.pc.Hook? {
      KeptFramed(s, s, ResumeEnd(c, s, input));
      ArmedOutside(ResumeEnd(c, s, input));
    } else if s.pc.Join? {
      UnwindPlaced(c, s, s, a, why);
    } else {
      KeptFramed(s, s, s.(active := None));
      DispatchPlaced(c, s, s.(active := None), if input.Throw? then Thrown else why);
    }
  }

  lemma StoppingMoves(c: Timing, s: State, input: Input)
    requires s.pc.Stopping?
    ensures Moves(s, ResumeFinal(c, s, input))
  {
    hide Kept, Lifecycle.Next, Lifecycle.Result, Lifecycle.Ticks;
    KeptSelf(s);
    var t := ResumeFinal(c, s, input);
    if t.pc.OfflineLock? { KeptNoted(s, s, OwnedDown, t); } else { KeptFramed(s, s, t); }
  }

  lemma FinalMoves(c: Timing, s: State, input: Input)
    requires InFinal(s.pc)
    ensures Moves(s, ResumeFinal(c, s, input))
  {
    if s.pc.Stopping? {
      StoppingMoves(c, s, input);
    } else {
      hide Kept, Lifecycle.Next, Lifecycle.Result, Lifecycle.Ticks;
      KeptSelf(s);
      var t := ResumeFinal(c, s, input);
      if s.pc.OfflineLock? && t.pc.GoingOffline? {
        KeptNoted(s, s, Sent(s.clock, |s.watched|, SetOffline), t);
      } else {
        KeptFramed(s, s, t);
      }
    }
  }

  lemma ResumeMoves(c: Timing, s: State, input: Input)
    requires CanResume(c, s, input) && Armed(s)
    ensures Moves(s, Resumed(c, s, input))
  {
    hide Moves, CanResume, Armed, ResumeSetup, ResumeClaim, ResumeRun, ResumeEnd, ResumeFinal;
    if InSetup(s.pc) { SetupMoves(c, s, input); }
    else if InClaim(s.pc) { ClaimMoves(c, s, input); }
    else if InRun(s.pc) { RunMoves(c, s, input); }
    else if InFinal(s.pc) { FinalMoves(c, s, input); }
    else if s.pc.EndLock? || s.pc.EndBeat? { WriteMoves(c, s, input); }
    else if s.pc.Hook? || s.pc.Join? || s.pc.Waiter? { CleanupMoves(c, s, input); }
    else { ReplyMoves(c, s, input); }
  }

  /** Every step of the system moves on from the attempt that was active before it. */
  lemma StepMoves(c: Timing, s: State, step: Step)
    requires CanStep(c, s, step) && Armed(s)
    ensures Moves(s, Next(c, s, step))
  {
    hide Kept, CanResume, Resumed, Supervision.CanStep, Supervision.Next, Promotion;
    var at := s.(clock := Time(step));
    var t := Next(c, s, step);
    KeptSelf(s);
    KeptFramed(s, s, at);
    match step
    case DrainSignal(_) => KeptNoted(s, at, DrainIntent, t);
    case StopSignal(_) => KeptNoted(s, at, DrainIntent, t);
    case Watch(w) => KeptFramed(s, s, t);
    case DrainGo(_) =>
      if s.registered && !s.stop {
        BeatKept(c, s, at);
        KeptFramed(s, Beat(c, at), t);
      }
    case DrainAnswer(_, r) =>
      BeatenKept(c, s, at, s.lock.sentAt, r);
      KeptFramed(s, Beaten(c, at, s.lock.sentAt, r), t);
    case DrainThrow(_) => KeptFramed(s, at, t);
    case Finish(_, a, ending) => KeptNoted(s, at, Ended(a, ending), t);
    case Resume(_, input) =>
      CanResumeLater(c, s, input, at.clock);
      ResumeMoves(c, at, input);
      SameStart(s, at, t);
  }

  lemma SameStart(s: State, x: State, t: State)
    requires s.log == x.log && s.active == x.active && Moves(x, t)
    ensures Moves(s, t)
  {
  }

  // --------------------------------------------------------------- runs from a state

  /** Attempt of `token` was granted, and it is not the active one. */
  ghost predicate Retired(s: State, token: string) {
    (s.active.Some? ==> s.active.value.token != token)
    && exists a :: Granted(a) in s.log && a.token == token
  }

  lemma RetiredStays(s: State, t: State, token: string)
    requires Retired(s, token) && Moves(s, t)
    ensures Retired(t, token)
    ensures forall j :: |s.log| <= j < |t.log| ==> !Shows(t.log[j], token)
  {
    var a :| Granted(a) in s.log && a.token == token;
    var k :| 0 <= k < |s.log| && s.log[k] == Granted(a);
    assert t.log[k] == Granted(a);
  }

  /** The cleanup of an attempt whose task has ended, in a Worker that drains no more. */
  predicate Muted(s: State, a: Attempt) {
    && (s.pc.AskLock? || s.pc.Asking? || s.pc.Waiter?) && s.pc.attempt == a
    && s.active == Some(a) && Granted(a) in s.log && s.live == multiset{}
    && (!s.registered || s.stop) && !s.lock.Drain?
  }

  /** The loop either stays in the cleanup or forgets the attempt, and shows its token to
      nobody meanwhile. */
  ghost predicate Fades(s: State, t: State, a: Attempt) {
    && (Muted(t, a) || Retired(t, a.token))
    && (forall j :: |s.log| <= j < |t.log| ==> !Shows(t.log[j], a.token))
    && s.log <= t.log
  }

  lemma ForgetsAttempt(c: Timing, s: State, x: State, a: Attempt, why: Why)
    requires Granted(a) in s.log && x.log == s.log && x.active.None?
    ensures Fades(s, Dispatch(c, x, why), a)
  {
    hide Moves, Kept, Dispatch, Armed;
    KeptSelf(x);
    DispatchPlaced(c, x, x, why);
    assert Retired(x, a.token);
    RetiredStays(x, Dispatch(c, x, why), a.token);
    MovesOnward(x, Dispatch(c, x, why));
  }

  lemma MovesOnward(s: State, t: State)
    requires Moves(s, t)
    ensures s.log <= t.log && Armed(t)
  {
  }

  lemma CleanupFades(c: Timing, s: State, a: Attempt, x: State, why: Why)
    requires Muted(s, a) && (x == s || x == s.(lock := Free))
    ensures Fades(s, Unwind(c, x, a, why), a)
  {
    hide Dispatch, Retired;
    ForgetsAttempt(c, s, x.(active := None), a, why);
  }

  lemma AskingFades(c: Timing, s: State, input: Input, a: Attempt)
    requires Muted(s, a) && s.pc.Asking? && CanResume(c, s, input)
    ensures Fades(s, ResumeEnd(c, s, input), a)
  {
    hide Unwind, Fades;
    var t := s.(lock := Free);
    CleanupFades(c, s, a, t, Thrown);
    if input.Answer? {
      CleanupFades(c, s, a, t, Finished);
      CleanupFades(c, s, a, t, Transport(409));
      CleanupFades(c, s, a, t, Transport(Code(input.reply)));
    }
  }

  lemma AsksQuietly(c: Timing, s: State, a: Attempt)
    requires Muted(s, a) && s.pc.AskLock?
    ensures Fades(s, Send(s, Inspect(a)).(pc := Asking(a), lock := Main), a)
  {
    hide Retired;
  }

  lemma MutedResume(c: Timing, s: State, input: Input, a: Attempt)
    requires Muted(s, a) && CanResume(c, s, input)
    ensures Fades(s, Resumed(c, s, input), a)
  {
    hide Unwind, Dispatch, Fades;
    if s.pc.AskLock? {
      CleanupFades(c, s, a, s, Thrown);
      AsksQuietly(c, s, a);
    } else if s.pc.Asking? {
      AskingFades(c, s, input, a);
    } else {
      ForgetsAttempt(c, s, s.(active := None), a, if input.Throw? then Thrown else s.pc.why);
    }
  }

  lemma MutedStep(c: Timing, s: State, step: Step, a: Attempt)
    requires Muted(s, a) && CanStep(c, s, step)
    ensures Fades(s, Next(c, s, step), a)
  {
    hide Retired, Resumed, CanResume, Supervision.CanStep, Supervision.Next;
    if step.Resume? {
      var at := s.(clock := Time(step));
      CanResumeLater(c, s, step.input, at.clock);
      MutedResume(c, at, step.input, a);
    }
  }

  lemma {:induction false} LogGrows(c: Timing, s: State, steps: seq<Step>)
    requires Runs(c, s, steps) && Armed(s)
    ensures s.log <= After(c, s, steps).log
    decreases |steps|
  {
    hide CanStep, Next, Moves, Armed;
    if steps != [] {
      StepMoves(c, s, steps[0]);
      MovesOnward(s, Next(c, s, steps[0]));
      LogGrows(c, Next(c, s, steps[0]), steps[1..]);
    }
  }

  /** A token that is retired, or muted in the cleanup, is never shown again. */
  lemma {:induction false} NeverShown(c: Timing, s: State, steps: seq<Step>, a: Attempt)
    requires Runs(c, s, steps) && Armed(s) && (Retired(s, a.token) || Muted(s, a))
    ensures s.log <= After(c, s, steps).log
    ensures forall j :: |s.log| <= j < |After(c, s, steps).log| ==> !Shows(After(c, s, steps).log[j], a.token)
    decreases |steps|
  {
    hide CanStep, Next, Moves, Armed, Retired, Muted, Shows;
    if steps != [] {
      var t, u := Next(c, s, steps[0]), After(c, s, steps);
      StepMoves(c, s, steps[0]);
      MovesOnward(s, t);
      if Retired(s, a.token) { RetiredStays(s, t, a.token); } else { MutedStep(c, s, steps[0], a); }
      NeverShown(c, t, steps[1..], a);
      forall j | |s.log| <= j < |u.log| ensures !Shows(u.log[j], a.token) {
        if j < |t.log| { assert u.log[j] == t.log[j]; }
      }
    }
  }

  lemma InitialArmed(s: State)
    requires Initial(s)
    ensures Armed(s)
  {
  }

  lemma {:induction false} RunsStayArmed(c: Timing, s: State, steps: seq<Step>)
    requires Runs(c, s, steps) && Armed(s)
    ensures Armed(After(c, s, steps))
    decreases |steps|
  {
    hide CanStep, Next, Moves, Armed;
    if steps != [] {
      StepMoves(c, s, steps[0]);
      MovesOnward(s, Next(c, s, steps[0]));
      RunsStayArmed(c, Next(c, s, steps[0]), steps[1..]);
    }
  }

  // ----------------------------------------------------------- the reply to the write

  /** The reply, or its loss, leaves the token active while a drain can still beat: the write
      was not acknowledged, the cleanup waits for the health watcher of a managed Worker or
      for Control's word on a conflict, and the Worker is still enrolled and not stopping. */
  predicate Lingers(c: Timing, s: State, input: Input) {
    && input != Answer(Accepted)
    && (c.managed || input == Answer(Refused(409)))
    && s.registered && !s.stop
    && (input.Answer? && input.reply.Refused? ==> input.reply.status !in {401, 403, 404})
  }

  lemma SettlingResumes(c: Timing, s: State, input: Input, a: Attempt)
    requires s.pc == Settling(a) && CanResume(c, s, input)
    ensures var t := s.(lock := Free);
            Resumed(c, s, input) == if !input.Answer? then Unwind(c, t, a, Thrown)
                                    else if input.reply.Accepted? then Unwind(c, Noted(t, Settled(a)).(active := None), a, Finished)
                                    else Severed(c, t, a, input.reply.status)
    ensures input.Throw? || input == Answer(Accepted) || (input.Answer? && input.reply.Refused?)
  {
    hide Unwind, Severed;
  }

  /** The token is still there for a drain to show. */
  predicate Lingering(s: State, a: Attempt) {
    s.active == Some(a) && s.registered && !s.stop && s.lock.Free?
  }

  ghost predicate Faded(s: State, a: Attempt) {
    Muted(s, a) || Retired(s, a.token)
  }

  /** Cleanup of an attempt whose task has ended: at once, or behind the health watcher. */
  lemma UnwindLeads(c: Timing, s: State, a: Attempt, why: Why)
    requires s.active == Some(a) && Granted(a) in s.log && s.live == multiset{} && s.lock.Free?
    ensures var t := Unwind(c, s, a, why);
            if c.managed && s.registered && !s.stop then Lingering(t, a) else Faded(t, a)
  {
    hide Dispatch, Retired;
    if !c.managed { ForgetsAttempt(c, s, s.(active := None), a, why); }
  }

  lemma SeveredLeads(c: Timing, s: State, a: Attempt, status: nat)
    requires s.active == Some(a) && Granted(a) in s.log && s.live == multiset{} && s.lock.Free?
    ensures var t := Severed(c, s, a, status);
            if (c.managed || status == 409) && s.registered && status !in {401, 403, 404} && !s.stop
            then Lingering(t, a) else Faded(t, a)
  {
    hide Unwind, Retired;
    var t := Lost(c, s, status);
    assert Granted(a) in t.log;
    if status != 409 { UnwindLeads(c, t, a, Transport(status)); }
  }

  lemma AcceptedLeads(c: Timing, s: State, a: Attempt)
    requires s.active.None? && Granted(a) in s.log && s.live == multiset{}
    ensures Faded(Unwind(c, s, a, Finished), a)
  {
    hide Dispatch;
    ForgetsAttempt(c, s, s, a, Finished);
  }

  /** Where the reply leads: the token lingers, or it is muted or retired. */
  lemma SettlingLeads(c: Timing, s: State, input: Input, a: Attempt)
    requires s.pc == Settling(a) && Armed(s) && CanResume(c, s, input)
    requires Granted(a) in s.log && s.live == multiset{}
    ensures var t := Resumed(c, s, input); if Lingers(c, s, input) then Lingering(t, a) else Faded(t, a)
  {
    var t := s.(lock := Free);
    assert s.active == Some(a);
    hide Unwind, Severed, Resumed, CanResume, Lingering, Faded;
    SettlingResumes(c, s, input, a);
    if input.Throw? {
      UnwindLeads(c, t, a, Thrown);
    } else if input.reply.Accepted? {
      assert Granted(a) in Noted(t, Settled(a)).log;
      AcceptedLeads(c, Noted(t, Settled(a)).(active := None), a);
    } else {
      SeveredLeads(c, t, a, input.reply.status);
    }
  }

  /** Some continuation logs a heartbeat that shows the token. */
  ghost predicate CanShow(c: Timing, t: State, token: string) {
    exists more, j: nat :: Runs(c, t, more) && |t.log| <= j < |After(c, t, more).log| && Shows(After(c, t, more).log[j], token)
  }

  lemma DrainShows(c: Timing, t: State, a: Attempt)
    requires Lingering(t, a)
    ensures CanShow(c, t, a.token)
  {
    var first, second := DrainSignal(t.clock), DrainGo(t.clock);
    var t1 := Next(c, t, first);
    var t2 := Next(c, t1, second);
    var more := [first, second];
    assert more[1..] == [second] && [second][1..] == [];
    assert Runs(c, t2, []) && After(c, t2, []) == t2;
    assert Runs(c, t1, [second]) && After(c, t1, [second]) == t2;
    assert t2.log == t.log + [DrainIntent] + [Sent(t1.clock, |t1.watched|, Heartbeat(t1.active, Promotion(c, t1)))];
    assert Shows(After(c, t, more).log[|t.log| + 1], a.token);
  }

  lemma FadedCannotShow(c: Timing, t: State, a: Attempt)
    requires Armed(t) && Faded(t, a)
    ensures !CanShow(c, t, a.token)
  {
    hide Armed, Muted, Retired, Shows, Runs, After;
    forall more, j: nat | Runs(c, t, more) && |t.log| <= j < |After(c, t, more).log|
      ensures !Shows(After(c, t, more).log[j], a.token)
    {
      NeverShown(c, t, more, a);
    }
  }

  /** In every reachable state that waits for the reply to a terminal write, whatever comes
      next: some continuation shows the token in a heartbeat if and only if the write was not
      acknowledged, the Worker is managed or the reply is a conflict, and the Worker is
      enrolled and not stopping.  An acknowledged write is thus not the only thing that keeps
      the token out of later heartbeats. */
  lemma TokenLingersExactly(c: Timing, start: State, steps: seq<Step>, a: Attempt, now: real, input: Input)
    requires c.Valid() && Initial(start) && Runs(c, start, steps)
    requires After(c, start, steps).pc == Settling(a) && CanStep(c, After(c, start, steps), Resume(now, input))
    ensures var s := After(c, start, steps);
            CanShow(c, Next(c, s, Resume(now, input)), a.token) <==> Lingers(c, s, input)
  {
    var s := After(c, start, steps);
    var t := Next(c, s, Resume(now, input));
    RunIsSound(c, start, steps);
    InitialArmed(start);
    RunsStayArmed(c, start, steps);
    hide Runs, After, CanShow, Shows, Moves, Lingering, Faded;
    StepMoves(c, s, Resume(now, input));
    MovesOnward(s, t);
    SettlingKnown(c, s, a);
    var at := s.(clock := now);
    CanResumeLater(c, s, input, now);
    hide Inv, Next, CanStep, CanResume, Initial;
    SettlingLeads(c, at, input, a);
    if Lingers(c, s, input) { DrainShows(c, t, a); } else { FadedCannotShow(c, t, a); }
  }

  lemma SettlingKnown(c: Timing, s: State, a: Attempt)
    requires Inv(c, s) && s.pc == Settling(a)
    ensures Granted(a) in s.log && s.live == multiset{}
  {
    hide Core, LeavesClean;
  }
}
