/** The Worker object: the segments of its coroutines that update its fields, written as
    methods and proved to be the transitions of the interleaved loop. */
module WorkerObject {
  import opened Contracts
  import opened WorkerLoop
  import Lifecycle
  import Supervision

  class WorkerRuntime {
    const timing: Timing
    var clock: real
    var stop: bool
    var draining: bool
    var registered: bool
    var controlState: Option<WorkerState>
    var validUntil: real
    var nextBeat: real
    var active: Option<Attempt>
    var lock: Lock
    var pc: Pc
    var live: multiset<Attempt>
    var endings: map<Attempt, Ending>
    var sup: Supervision.State
    var watched: seq<Supervision.Step>
    var owned: Lifecycle.Owned
    var log: seq<Note>

    function Now(): State
      reads this
    {
      State(clock, stop, draining, registered, controlState, validUntil, nextBeat, active, lock, pc,
            live, endings, sup, watched, owned, log)
    }

    constructor (timing: Timing, start: real, owned: Lifecycle.Owned)
      requires start >= 0.0 && Lifecycle.Truthful(owned)
      ensures this.timing == timing && Initial(Now()) && Now().clock == start
    {
      this.timing, clock, this.owned := timing, start, owned;
      stop, draining, registered, controlState := false, false, false, None;
      validUntil, nextBeat, active, lock, pc := 0.0, 0.0, None, Free, Boot;
      live, endings, sup, watched, log := multiset{}, map[], Supervision.Fresh(start), [], [];
    }

    method ReadRuntimeAvailable() returns (available: bool)
      modifies this
      ensures Now() == Looked(timing, old(Now()))
      ensures clock == old(clock) && nextBeat == old(nextBeat)
      ensures available <==> RuntimeOk(timing, old(Now()))
    {
      if !timing.managed { return true; }
      watched := watched + [Supervision.Look(clock)];
      sup := sup.(clock := clock);
      if sup.validUntil != 0.0 && clock >= sup.validUntil {
        if !sup.failed && !sup.closed {
          sup := sup.(validUntil := 0.0, reason := Some(Supervision.Stale), failed := true);
        }
      }
      return !sup.closed && !sup.failed && sup.validUntil != 0.0;
    }

    /** Readiness: every local gate first, the runtime last. */
    method ReadReady() returns (ready: bool)
      modifies this
      ensures Now() == ReadyLook(timing, old(Now()))
      ensures clock == old(clock) && nextBeat == old(nextBeat)
      ensures ready <==> ReadyNow(timing, old(Now()))
    {
      if stop || !registered { return false; }
      if draining || controlState == Some(Draining) || (timing.managed && sup.failed) { return false; }
      if clock >= validUntil || controlState != Some(Online) { return false; }
      ready := ReadRuntimeAvailable();
    }

    method RequestDrain()
      modifies this
      ensures Now() == Next(timing, old(Now()), DrainSignal(old(clock)))
    {
      draining := true;
      log := log + [DrainIntent];
    }

    method RequestStop()
      modifies this
      ensures Now() == Next(timing, old(Now()), StopSignal(old(clock)))
    {
      RequestDrain();
      stop := true;
    }

    method ControlFailed(status: nat)
      modifies this
      ensures Now() == Lost(timing, old(Now()), status)
    {
      validUntil := 0.0;
      if status in {401, 403, 404} { registered := false; }
      nextBeat := clock + timing.interval;
      log := log + [ControlLost(status)];
    }

    /** Judges the reply to a heartbeat sent at `sentAt`; says whether it was an acknowledgement. */
    method HeartbeatReplied(sentAt: real, reply: Reply) returns (acknowledged: bool)
      requires BeatReply(reply)
      modifies this
      ensures Now() == Beaten(timing, old(Now()), sentAt, reply)
      ensures acknowledged <==> reply.Ack?
    {
      if reply.Ack? {
        log := log + [Acked(sentAt, reply.state)];
        registered := true;
        controlState := Some(reply.state);
        validUntil := sentAt + timing.interval + timing.timeout;
        nextBeat := clock + timing.interval;
        return true;
      }
      ControlFailed(if reply.Refused? then reply.status else 502);
      return false;
    }

    method SendHeartbeat()
      modifies this
      ensures Now() == Beat(timing, old(Now()))
    {
      var state: Option<WorkerState> := None;
      if (draining || (timing.managed && sup.failed)) && clock < validUntil && controlState != Some(Offline) {
        state := Some(Draining);
      }
      log := log + [Sent(clock, |watched|, Heartbeat(active, state))];
    }

    /** The loop's last segment before it closes the supervisor or releases the Worker. */
    method LeaveLoop()
      modifies this
      ensures Now() == Final(timing, old(Now()))
    {
      RequestStop();
      validUntil := 0.0;
      if timing.managed {
        sup := sup.(clock := clock, closed := true, validUntil := 0.0);
        watched := watched + [Supervision.Close(clock)];
        pc := Closing;
      } else {
        pc := OfflineLock;
      }
    }

    /** Releases the control lock and goes around the loop, or leaves it. */
    method GoAround()
      modifies this
      ensures Now() == LoopTop(timing, old(Now()).(lock := Free))
    {
      hide Final;
      lock := Free;
      if stop { LeaveLoop(); } else { pc := LoopLock; }
    }

    /** The claim segment under the control lock: a heartbeat first when one has come due. */
    method ClaimUnderLock()
      requires pc.ClaimLock?
      modifies this
      ensures Now() == ResumeClaim(timing, old(Now()), Go)
    {
      hide ReadyLook, ReadyNow, Beat, LoopTop, Final, Granting, Dispatch, Beaten, LoopReady, Deferred, RuntimeOk, Looked;
      var ready := ReadReady();
      if !ready {
        GoAround();
      } else if clock >= nextBeat {
        var sentAt := clock;
        SendHeartbeat();
        pc, lock := ClaimBeat(sentAt), Main;
      } else {
        log := log + [Sent(clock, |watched|, Claim)];
        pc, lock := Claiming, Main;
      }
    }
  }
}
