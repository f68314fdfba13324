/** The execution loop of one Worker as an interleaved machine.  Its coroutines are cut
    at every await: the loop itself (`pc`), drain requests, signals, the executor task
    and the health supervisor each move in steps of their own.  A segment between two
    awaits is one step and reads one clock value.  Every message to Control, and every
    reply that matters, is kept in `log`. */
module WorkerLoop {
  import opened Contracts
  import Lifecycle
  import Supervision

  datatype Timing = Timing(managed: bool, interval: real, timeout: real, policy: Supervision.Policy) {
    predicate Valid() { interval > 0.0 && timeout > 0.0 && policy.Valid() }
  }

  /** A claimed job: its identity and the lease token of this attempt. */
  datatype Attempt = Attempt(job: string, token: string)

  datatype Verdict = Success | Failure(retryable: bool)

  datatype Message =
    | Register
    | Heartbeat(active: Option<Attempt>, state: Option<WorkerState>)
    | Claim
    | Settle(attempt: Attempt, verdict: Verdict)
    | Inspect(attempt: Attempt)
    | SetOffline

  datatype Note =
    | DrainIntent
    | Sent(at: real, seen: nat, message: Message)   // `seen`: supervisor steps taken so far
    | Acked(sentAt: real, state: WorkerState)
    | ControlLost(status: nat)
    | Granted(attempt: Attempt)
    | Settled(attempt: Attempt)
    | Started(attempt: Attempt)
    | Ended(attempt: Attempt, ending: Ending)
    | Rechecking(attempt: Attempt, since: nat)       // `since`: supervisor steps taken so far
    | OwnedDown

  /** How the executor task ended. */
  datatype Ending = Result | NotAResult | Raised | Cancelled

  /** What an attempt's cleanup goes on to: the next iteration, a pause for the lost
      runtime, a pause for a transport error, or the end of the loop. */
  datatype Why = Finished | RuntimeLost | Transport(status: nat) | Thrown

  datatype Pc =
    | Boot | Starting | Asleep
    | RegisterLock | Registering(sentAt: real) | RegisterBeat(sentAt: real)
    | LoopLock | LoopBeat(sentAt: real) | Poll
    | ClaimLock | ClaimBeat(sentAt: real) | Claiming
    | RunLock(attempt: Attempt) | RunBeat(attempt: Attempt, sentAt: real) | RunWait(attempt: Attempt)
    | Check(attempt: Attempt, since: nat)
    | EndLock(attempt: Attempt, verdict: Verdict)
    | EndBeat(attempt: Attempt, verdict: Verdict, sentAt: real)
    | Settling(attempt: Attempt)
    | AskLock(attempt: Attempt) | Asking(attempt: Attempt)
    | Hook(attempt: Attempt, why: Why) | Join(attempt: Attempt, why: Why) | Waiter(attempt: Attempt, why: Why)
    | Closing | Stopping | OfflineLock | GoingOffline | Done

  datatype Lock = Free | Main | Drain(sentAt: real)

  datatype State = State(
    clock: real, stop: bool, draining: bool, registered: bool, controlState: Option<WorkerState>,
    validUntil: real, nextBeat: real, active: Option<Attempt>, lock: Lock, pc: Pc,
    live: multiset<Attempt>, endings: map<Attempt, Ending>,
    sup: Supervision.State, watched: seq<Supervision.Step>, owned: Lifecycle.Owned, log: seq<Note>)

  datatype Reply =
    | Ack(state: WorkerState) | BadAck | Refused(status: nat)
    | NoJob | Grant(attempt: Attempt) | Accepted | JobStatus(cancelled: bool)

  datatype Input =
    | Go                                     // the lock is ours, or the wait is over
    | Answer(reply: Reply)
    | Shut(replies: Lifecycle.Replies)       // shutdown of the owned runtime ended
    | Throw                                  // cancelled, or an error nothing handles

  datatype Step =
    | DrainSignal(now: real) | StopSignal(now: real)
    | Watch(step: Supervision.Step)
    | DrainGo(now: real) | DrainAnswer(now: real, reply: Reply) | DrainThrow(now: real)
    | Finish(now: real, attempt: Attempt, ending: Ending)
    | Resume(now: real, input: Input)

  function Time(step: Step): real {
    if step.Watch? then step.step.now else step.now
  }

  // -------------------------------------------------------------- local readings

  function Viewed(s: State): Supervision.State {
    s.sup.(clock := s.clock)
  }

  predicate RuntimeOk(c: Timing, s: State) {
    c.managed ==> Supervision.Available(Viewed(s))
  }

  /** Reading availability may latch a stale health lease. */
  function Looked(c: Timing, s: State): State {
    if c.managed then
      s.(sup := Supervision.Looked(Viewed(s)), watched := s.watched + [Supervision.Look(s.clock)])
    else s
  }

  predicate SupervisorFailed(c: Timing, s: State) {
    c.managed && s.sup.failed
  }

  predicate Authorized(c: Timing, s: State) {
    && !s.stop && s.registered
    && !s.draining && s.controlState != Some(Draining) && !SupervisorFailed(c, s)
    && s.clock < s.validUntil && s.controlState == Some(Online)
  }

  predicate ReadyNow(c: Timing, s: State) {
    Authorized(c, s) && RuntimeOk(c, s)
  }

  /** Readiness is evaluated left to right, so availability is read only last. */
  function ReadyLook(c: Timing, s: State): State {
    if Authorized(c, s) then Looked(c, s) else s
  }

  predicate Due(s: State) {
    s.clock >= s.nextBeat
  }

  // ------------------------------------------------------------- control messages

  function Noted(s: State, note: Note): State {
    s.(log := s.log + [note])
  }

  function Send(s: State, m: Message): State {
    Noted(s, Sent(s.clock, |s.watched|, m))
  }

  function Lost(c: Timing, s: State, status: nat): State {
    Noted(s, ControlLost(status)).(validUntil := 0.0, nextBeat := s.clock + c.interval,
                           registered := s.registered && status != 401 && status != 403 && status != 404)
  }

  /** A valid acknowledgement extends authority from the time its request was sent. */
  function Acknowledged(c: Timing, s: State, sentAt: real, state: WorkerState): State {
    Noted(s, Acked(sentAt, state)).(registered := true, controlState := Some(state),
                                    validUntil := sentAt + c.interval + c.timeout)
  }

  /** The state a heartbeat asks for: never a promotion out of OFFLINE. */
  function Promotion(c: Timing, s: State): Option<WorkerState> {
    if (s.draining || SupervisorFailed(c, s)) && s.clock < s.validUntil && s.controlState != Some(Offline)
    then Some(Draining) else None
  }

  function Beat(c: Timing, s: State): State {
    Send(s, Heartbeat(s.active, Promotion(c, s)))
  }

  function Beaten(c: Timing, s: State, sentAt: real, reply: Reply): State {
    if reply.Ack? then Acknowledged(c, s, sentAt, reply.state).(nextBeat := s.clock + c.interval)
    else Lost(c, s, if reply.Refused? then reply.status else 502)
  }

  function Code(reply: Reply): nat {
    if reply.Refused? then reply.status else 502
  }

  function Deferred(c: Timing, s: State): State {
    s.(nextBeat := s.clock + c.interval, lock := Free)
  }

  // ------------------------------------------------------- segments of the main loop

  function Final(c: Timing, s: State): State {
    var t := Noted(s, DrainIntent).(draining := true, stop := true, validUntil := 0.0);
    if c.managed then
      t.(pc := Closing, sup := Viewed(s).(closed := true, validUntil := 0.0),
         watched := s.watched + [Supervision.Close(s.clock)])
    else t.(pc := OfflineLock)
  }

  function LoopTop(c: Timing, s: State): State {
    if s.stop then Final(c, s) else s.(pc := LoopLock)
  }

  function Dispatch(c: Timing, s: State, why: Why): State {
    match why
    case Finished => LoopTop(c, s)
    case RuntimeLost => s.(pc := Poll)
    case Transport(status) => Lost(c, s, status).(pc := Poll)
    case Thrown => Final(c, s)
  }

  function LoopReady(c: Timing, s: State): State {
    ReadyLook(c, s).(pc := if ReadyNow(c, s) then ClaimLock else Poll)
  }

  function ClaimIfReady(c: Timing, s: State): State {
    if ReadyNow(c, s) then Send(ReadyLook(c, s), Claim).(pc := Claiming, lock := Main)
    else LoopTop(c, ReadyLook(c, s).(lock := Free))
  }

  /** Cleanup after the executor task has ended: join the failure waiter, forget the attempt. */
  function Unhooked(c: Timing, s: State, a: Attempt, why: Why): State {
    if c.managed then s.(pc := Waiter(a, why)) else Dispatch(c, s.(active := None), why)
  }

  function Unwind(c: Timing, s: State, a: Attempt, why: Why): State {
    if a in s.live then s.(pc := Hook(a, why)) else Unhooked(c, s, a, why)
  }

  /** A transport error inside an attempt; a conflict asks Control about the job first. */
  function Severed(c: Timing, s: State, a: Attempt, status: nat): State {
    var t := Lost(c, s, status);
    if status == 409 then t.(pc := AskLock(a)) else Unwind(c, t, a, Transport(status))
  }

  function RunBeaten(c: Timing, s: State, a: Attempt): State {
    if RuntimeOk(c, s) then Looked(c, s).(pc := RunWait(a)) else Unwind(c, Looked(c, s), a, RuntimeLost)
  }

  function RunEnded(c: Timing, s: State, a: Attempt): State {
    var t := Looked(c, s);
    if !RuntimeOk(c, s) then Unwind(c, t, a, RuntimeLost)
    else if a !in s.endings || s.endings[a].Cancelled? then Unwind(c, t, a, Thrown)
    else if s.endings[a].Raised? then
      if c.managed then Noted(t, Rechecking(a, |t.watched|)).(pc := Check(a, |t.watched|)) else t.(pc := EndLock(a, Verdict.Failure(true)))
    else t.(pc := EndLock(a, if s.endings[a].Result? then Success else Verdict.Failure(false)))
  }

  function RunLoop(c: Timing, s: State, a: Attempt): State {
    if a !in s.live then RunEnded(c, s, a)
    else if RuntimeOk(c, s) then Looked(c, s).(pc := RunLock(a))
    else Unwind(c, Looked(c, s), a, RuntimeLost)
  }

  /** A claim was answered with a job: execute it unless the runtime failed meanwhile. */
  function Granting(c: Timing, s: State, a: Attempt): State {
    var t := Noted(s, Granted(a)).(active := Some(a), lock := Free);
    if !RuntimeOk(c, t) then Dispatch(c, Looked(c, t).(active := None), RuntimeLost)
    else Noted(Looked(c, t), Started(a)).(live := t.live + multiset{a}, pc := RunLock(a))
  }

  function EndSend(c: Timing, s: State, a: Attempt, v: Verdict): State {
    var t := Looked(c, s);
    if !RuntimeOk(c, s) then Unwind(c, t.(lock := Free), a, RuntimeLost)
    else if s.clock >= s.validUntil then Severed(c, t.(lock := Free), a, 0)
    else Send(t, Settle(a, v)).(pc := Settling(a), lock := Main)
  }

  // --------------------------------------------------------------------- one step

  predicate WaitsForLock(pc: Pc) {
    pc.RegisterLock? || pc.LoopLock? || pc.ClaimLock? || pc.RunLock? || pc.EndLock? || pc.AskLock? || pc.OfflineLock?
  }

  predicate AwaitsBeat(pc: Pc) {
    pc.Registering? || pc.RegisterBeat? || pc.LoopBeat? || pc.ClaimBeat? || pc.RunBeat? || pc.EndBeat?
  }

  predicate HoldsLock(pc: Pc) {
    AwaitsBeat(pc) || pc.Claiming? || pc.Settling? || pc.Asking? || pc.GoingOffline?
  }

  predicate BeatReply(r: Reply) {
    r.Ack? || r.BadAck? || r.Refused?
  }

  /** Control hands out a lease token at most once. */
  predicate FreshToken(log: seq<Note>, a: Attempt) {
    forall n :: n in log && n.Granted? ==> n.attempt.token != a.token
  }

  /** A probe that started after the first `since` steps was answered READY. */
  predicate ProbedSince(c: Timing, watched: seq<Supervision.Step>, since: nat) {
    exists i, k :: since <= i < k < |watched| && Supervision.Probe(c.policy, watched, i, k)
  }

  /** The check after a raised execution is over when its own probe was answered, or when it
      finds, or makes, the runtime unavailable. */
  predicate CanResume(c: Timing, s: State, input: Input) {
    match input
    case Throw => !s.pc.Boot? && !s.pc.Join? && !s.pc.Done?
    case Answer(r) =>
      || (AwaitsBeat(s.pc) && BeatReply(r))
      || (s.pc.Claiming? && (r.NoJob? || r.Refused? || (r.Grant? && FreshToken(s.log, r.attempt))))
      || ((s.pc.Settling? || s.pc.GoingOffline?) && (r.Accepted? || r.Refused?))
      || (s.pc.Asking? && (r.JobStatus? || r.Refused?))
    case Shut(r) => s.pc.Stopping? && Lifecycle.Ticks(r) && r.bound >= 1
    case Go =>
      || (WaitsForLock(s.pc) && s.lock.Free?)
      || s.pc.Boot? || (s.pc.Starting? && s.sup.initialized) || (s.pc.Asleep? && s.stop)
      || s.pc.Poll? || s.pc.RunWait? || s.pc.Hook? || s.pc.Waiter? || s.pc.Closing?
      || (s.pc.Join? && s.pc.attempt !in s.live)
      || (s.pc.Check? && (RuntimeOk(c, s) ==> ProbedSince(c, s.watched, s.pc.since)))
  }

  predicate CanStep(c: Timing, s: State, step: Step) {
    && s.clock <= Time(step)
    && match step
       case DrainSignal(_) => true
       case StopSignal(_) => true
       case Watch(w) => c.managed && Supervision.CanStep(s.sup, w) && !w.Close?
       case DrainGo(_) => s.draining && s.lock.Free?
       case DrainAnswer(_, r) => s.lock.Drain? && BeatReply(r)
       case DrainThrow(_) => s.lock.Drain?
       case Finish(_, a, _) => a in s.live
       case Resume(_, input) => CanResume(c, s, input)
  }

  /** Starting up and registering. */
  function ResumeSetup(c: Timing, s: State, input: Input): State {
    if input.Throw? then Final(c, s.(lock := if HoldsLock(s.pc) then Free else s.lock))
    else match s.pc
      case Boot =>
        if s.stop then Final(c, s) else s.(pc := if c.managed then Starting else RegisterLock)
      case Starting => Looked(c, s).(pc := if RuntimeOk(c, s) then RegisterLock else Asleep)
      case Asleep => Final(c, s)
      case RegisterLock => Send(s, Register).(pc := Registering(s.clock), lock := Main)
      case Registering(sentAt) =>
        if input.Answer? && input.reply.Ack? then
          var t := Acknowledged(c, s, sentAt, input.reply.state).(nextBeat := s.clock + c.interval);
          if t.draining then Beat(c, t).(pc := RegisterBeat(s.clock)) else LoopTop(c, t.(lock := Free))
        else Final(c, Lost(c, s, if input.Answer? then Code(input.reply) else 502).(lock := Free))
      case RegisterBeat(sentAt) =>
        if input.Answer? && input.reply.Ack? then LoopTop(c, Beaten(c, s, sentAt, input.reply).(lock := Free))
        else Final(c, Lost(c, s, if input.Answer? then Code(input.reply) else 502).(lock := Free))
      case _ => s
  }

  /** Heartbeats between attempts and the claim itself. */
  function ResumeClaim(c: Timing, s: State, input: Input): State {
    if input.Throw? then
      Final(c, if s.pc.LoopBeat? || s.pc.ClaimBeat? then Deferred(c, s)
               else s.(lock := if HoldsLock(s.pc) then Free else s.lock))
    else match s.pc
      case LoopLock =>
        if Due(s) then Beat(c, s).(pc := LoopBeat(s.clock), lock := Main) else LoopReady(c, s)
      case LoopBeat(sentAt) =>
        if input.Answer? then
          var t := Beaten(c, s, sentAt, input.reply).(lock := Free);
          if input.reply.Ack? then LoopReady(c, t) else Dispatch(c, t, Transport(Code(input.reply)))
        else s
      case Poll => LoopTop(c, s)
      case ClaimLock =>
        if ReadyNow(c, s) && Due(s) then Beat(c, ReadyLook(c, s)).(pc := ClaimBeat(s.clock), lock := Main)
        else ClaimIfReady(c, s)
      case ClaimBeat(sentAt) =>
        if input.Answer? then
          var t := Beaten(c, s, sentAt, input.reply);
          if input.reply.Ack? then ClaimIfReady(c, t)
          else Dispatch(c, t.(lock := Free), Transport(Code(input.reply)))
        else s
      case Claiming =>
        if !input.Answer? then s
        else if input.reply.Grant? then Granting(c, s, input.reply.attempt)
        else if input.reply.NoJob? then s.(active := None, lock := Free, pc := Poll)
        else Dispatch(c, s.(lock := Free), Transport(Code(input.reply)))
      case _ => s
  }

  /** While the executor task may be running. */
  function ResumeRun(c: Timing, s: State, input: Input): State {
    match s.pc
    case RunLock(a) =>
      if input.Throw? then Unwind(c, s, a, Thrown)
      else if Due(s) then Beat(c, s).(pc := RunBeat(a, s.clock), lock := Main) else RunBeaten(c, s, a)
    case RunBeat(a, sentAt) =>
      if !input.Answer? then Unwind(c, Deferred(c, s), a, Thrown)
      else
        var t := Beaten(c, s, sentAt, input.reply).(lock := Free);
        if input.reply.Ack? then RunBeaten(c, t, a) else Severed(c, t, a, Code(input.reply))
    case RunWait(a) => if input.Throw? then Unwind(c, s, a, Thrown) else RunLoop(c, s, a)
    case Check(a, _) =>
      if input.Throw? then Unwind(c, s, a, Thrown)
      else if RuntimeOk(c, s) then Looked(c, s).(pc := EndLock(a, Verdict.Failure(true)))
      else Unwind(c, Looked(c, s), a, RuntimeLost)
    case _ => s
  }

  /** The terminal write and the cleanup of the attempt. */
  function ResumeEnd(c: Timing, s: State, input: Input): State {
    match s.pc
    case EndLock(a, v) =>
      if input.Throw? then Unwind(c, s, a, Thrown)
      else if Due(s) then Beat(c, s).(pc := EndBeat(a, v, s.clock), lock := Main) else EndSend(c, s, a, v)
    case EndBeat(a, v, sentAt) =>
      if !input.Answer? then Unwind(c, Deferred(c, s), a, Thrown)
      else
        var t := Beaten(c, s, sentAt, input.reply);
        if input.reply.Ack? then EndSend(c, t, a, v) else Severed(c, t.(lock := Free), a, Code(input.reply))
    case Settling(a) =>
      var t := s.(lock := Free);
      if !input.Answer? then Unwind(c, t, a, Thrown)
      else if input.reply.Accepted? then Unwind(c, Noted(t, Settled(a)).(active := None), a, Finished)
      else Severed(c, t, a, Code(input.reply))
    case AskLock(a) =>
      if input.Throw? then Unwind(c, s, a, Thrown)
      else Send(s, Inspect(a)).(pc := Asking(a), lock := Main)
    case Asking(a) =>
      var t := s.(lock := Free);
      if !input.Answer? then Unwind(c, t, a, Thrown)
      else if input.reply.JobStatus? then Unwind(c, t, a, if input.reply.cancelled then Finished else Transport(409))
      else Unwind(c, t, a, Transport(Code(input.reply)))
    case Hook(a, why) => s.(pc := Join(a, if input.Throw? then Thrown else why))
    case Join(a, why) => Unhooked(c, s, a, why)
    case Waiter(a, why) => Dispatch(c, s.(active := None), if input.Throw? then Thrown else why)
    case _ => s
  }

  /** Leaving the loop: close the supervisor, stop the owned runtime, release the Worker. */
  function ResumeFinal(c: Timing, s: State, input: Input): State {
    match s.pc
    case Closing => s.(pc := if input.Throw? then Done else Stopping)
    case Stopping =>
      if !input.Shut? || !Lifecycle.Ticks(input.replies) || input.replies.bound < 1 then s.(pc := Done)
      else
        var call := Lifecycle.ShutdownOwned(input.replies);
        var t := s.(owned := Lifecycle.Next(s.owned, call));
        if Lifecycle.Result(s.owned, call).Returned? then Noted(t, OwnedDown).(pc := OfflineLock) else t.(pc := Done)
    case OfflineLock =>
      if input.Throw? then s.(pc := Done)
      else if s.registered then Send(s, SetOffline).(pc := GoingOffline, lock := Main)
      else s.(pc := Done)
    case GoingOffline => s.(pc := Done, lock := Free, registered := s.registered && input.Throw?)
    case _ => s
  }

  predicate InSetup(pc: Pc) {
    pc.Boot? || pc.Starting? || pc.Asleep? || pc.RegisterLock? || pc.Registering? || pc.RegisterBeat?
  }

  predicate InClaim(pc: Pc) {
    pc.LoopLock? || pc.LoopBeat? || pc.Poll? || pc.ClaimLock? || pc.ClaimBeat? || pc.Claiming?
  }

  predicate InRun(pc: Pc) {
    pc.RunLock? || pc.RunBeat? || pc.RunWait? || pc.Check?
  }

  predicate InFinal(pc: Pc) {
    pc.Closing? || pc.Stopping? || pc.OfflineLock? || pc.GoingOffline? || pc.Done?
  }

  function Resumed(c: Timing, s: State, input: Input): State {
    if InSetup(s.pc) then ResumeSetup(c, s, input)
    else if InClaim(s.pc) then ResumeClaim(c, s, input)
    else if InRun(s.pc) then ResumeRun(c, s, input)
    else if InFinal(s.pc) then ResumeFinal(c, s, input)
    else ResumeEnd(c, s, input)
  }

  function Next(c: Timing, s: State, step: Step): State
    requires CanStep(c, s, step)
  {
    var at := s.(clock := Time(step));
    match step
    case DrainSignal(_) => Noted(at, DrainIntent).(draining := true)
    case StopSignal(_) => Noted(at, DrainIntent).(draining := true, stop := true)
    case Watch(w) => at.(sup := Supervision.Next(c.policy, s.sup, w), watched := s.watched + [w])
    case DrainGo(_) => if s.registered && !s.stop then Beat(c, at).(lock := Drain(at.clock)) else at
    case DrainAnswer(_, r) => Beaten(c, at, s.lock.sentAt, r).(lock := Free)
    case DrainThrow(_) => Deferred(c, at)
    case Finish(_, a, ending) => Noted(at, Ended(a, ending)).(live := s.live - multiset{a}, endings := s.endings[a := ending])
    case Resume(_, input) => Resumed(c, at, input)
  }

  predicate Runs(c: Timing, s: State, steps: seq<Step>)
    decreases |steps|
  {
    steps == [] || (CanStep(c, s, steps[0]) && Runs(c, Next(c, s, steps[0]), steps[1..]))
  }

  function After(c: Timing, s: State, steps: seq<Step>): State
    requires Runs(c, s, steps)
    decreases |steps|
  {
    if steps == [] then s else After(c, Next(c, s, steps[0]), steps[1..])
  }

  /** A loop that has not run yet, next to a manager whose flag is truthful. */
  predicate Initial(s: State) {
    && s.clock >= 0.0 && !s.registered && s.controlState.None? && s.validUntil == 0.0
    && s.active.None? && s.lock.Free? && s.pc.Boot? && s.live == multiset{}
    && !s.stop && !s.draining && s.log == [] && s.watched == []
    && s.endings == map[] && s.sup == Supervision.Fresh(s.clock) && Lifecycle.Truthful(s.owned)
  }
}
