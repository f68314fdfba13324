/** The service a plan starts: a pass that goes through leaves it running, and a failed one
    leaves it stopped after the rollback, unless the failing call is a start that had come up. */
module SystemdStarts {
  import opened Contracts
  import opened SetupApply
  import opened Systemd
  import opened SystemdRestore
  import opened SystemdMigration
  import opened SystemdFiles
  import UnitMigration
  import P = Planner

  // ------------------------------------------------------------------- one step forward

  /** Actions that stop a running service when they are applied. */
  predicate Stops(k: Kind) {
    k.WorkerStop? || k.RuntimeStop? || k.RuntimeRelease?
  }

  /** The start raises although the service came up. */
  predicate TornStart(w: World, g: Host, a: Action) {
    a.kind.RuntimeStart? && w.faults(g.tick).After?
  }

  /** What inspecting and applying one action does to the running service. */
  predicate ActiveStep(w: World, g: Host, a: Action) {
    var (seen, inspection) := DriverOf(w).inspect(g, a);
    var (next, receipt) := DriverOf(w).apply(seen, a);
    && seen.active == g.active && seen.live == g.live && next.live == g.live
    && (a.kind.RuntimeStart? && inspection == Some(Satisfied) ==> g.active)
    && (inspection == Some(NeedsApply) ==>
          if a.kind.RuntimeStart? then
            && g.live && !g.active
            && (if receipt.Some? then next.active && receipt.value.changed else next.active == TornStart(w, g, a))
          else if Stops(a.kind) then g.active && (receipt.Some? ==> !next.active)
          else
            && next.active == g.active
            && (a.kind.ReconcileWorker? && receipt.Some? && receipt.value.changed ==> receipt.value.undo.Previous?))
  }

  lemma ReconcileKeepsActive(w: World, h: Host, a: Action)
    ensures var (t, r) := ApplyReconcile(w, h, a);
            t.active == h.active && t.live == h.live && (r.Some? && r.value.changed ==> r.value.undo.Previous?)
  {
    hide UnitMigration.Parse, UnitMigration.Render, Install, InspectReconcile;
    var toml, unit := w.renderToml(h.toml), UnitMigration.Render(w.template, h.unit);
    if toml.Some? && unit.Some? {
      var newToml, newUnit := Changed(h.toml, toml.value), Changed(h.unit, unit.value);
      var oldToml := if newToml.Some? then Some(h.toml) else None;
      var oldUnit := if newUnit.Some? then Some(h.unit) else None;
      var unsafe := if h.live && (newToml.Some? || newUnit.Some?) then h.(restartSafe := false) else h;
      InstallLoads(w, unsafe, newToml, newUnit);
      InstallLoads(w, Install(w, unsafe, newToml, newUnit).0, oldToml, oldUnit);
    }
  }

  lemma ServiceStep(w: World, g: Host, a: Action)
    requires a.kind.RuntimeStart? || Stops(a.kind)
    ensures ActiveStep(w, g, a)
  {
    hide DriverOf, InspectReconcile, InspectRender, ApplyReconcile, ApplyRender, Contract, UnitMigration.Parse;
    DriverCalls(w, g, a);
  }

  lemma StepActive(w: World, g: Host, a: Action)
    ensures ActiveStep(w, g, a)
  {
    if a.kind.RuntimeStart? || Stops(a.kind) {
      ServiceStep(w, g, a);
    } else {
      hide DriverOf, InspectReconcile, InspectRender, ApplyReconcile, ApplyRender, InspectStop;
      DriverCalls(w, g, a);
      if a.kind.ReconcileWorker? {
        ReconcileKeepsActive(w, g, a);
      } else if a.kind.RenderConfig? {
        AsideApplies(w, g, a);
      }
    }
  }

  // --------------------------------------------------------------------- the whole pass

  /** Starts can be undone, and the Worker is never stopped after the runtime was started. */
  ghost predicate StartsLate(actions: seq<Action>) {
    && (forall a :: a in actions && a.kind.RuntimeStart? ==> a.reversible)
    && (forall i, j :: 0 <= i < j < |actions| && actions[i].kind.RuntimeStart? ==> !actions[j].kind.WorkerStop?)
  }

  predicate NoWorkerStop(actions: seq<Action>) {
    forall a :: a in actions ==> !a.kind.WorkerStop?
  }

  /** The pass reaches a start that raises although the service came up. */
  predicate StartTorn(w: World, g: Host, actions: seq<Action>)
    decreases |actions|
  {
    actions != [] &&
    var a := actions[0];
    var (seen, inspection) := DriverOf(w).inspect(g, a);
    var (next, receipt) := DriverOf(w).apply(seen, a);
    if inspection == Some(Satisfied) then StartTorn(w, seen, actions[1..])
    else inspection == Some(NeedsApply) && (if receipt.None? then TornStart(w, g, a) else StartTorn(w, next, actions[1..]))
  }

  /** Undoing the item stops the service. */
  predicate Halts(item: Done<Undo>) {
    Undoable(item) && (item.action.kind.RuntimeStart? || item.action.kind.ReconcileWorker?)
  }

  predicate Halted(done: seq<Done<Undo>>) {
    exists item :: item in done && Halts(item)
  }

  /** Nothing among the applied actions restarts a service when it is undone. */
  predicate NoRestarts(done: seq<Done<Undo>>) {
    forall item :: item in done ==>
      && !item.action.kind.WorkerStop?
      && (item.action.kind.ReconcileWorker? && item.receipt.changed ==> item.receipt.undo.Previous?)
  }

  /** The state of the pass: a running service was started by an action that can be undone. */
  ghost predicate Accounted(g: Host, rest: seq<Action>, done: seq<Done<Undo>>) {
    NoRestarts(done) && (g.active ==> g.live && Halted(done) && NoWorkerStop(rest))
  }

  ghost predicate Ends(w: World, g: Host, actions: seq<Action>, done: seq<Done<Undo>>) {
    var pass := Forward(DriverOf(w), g, actions);
    && NoRestarts(done + pass.done)
    && (pass.target.active ==> pass.target.live)
    && (if StartTorn(w, g, actions) then pass.target.active else pass.target.active ==> Halted(done + pass.done))
  }

  lemma EndsOnward(w: World, g: Host, actions: seq<Action>, next: Host, done: seq<Done<Undo>>,
                   first: seq<Done<Undo>>, result: Result)
    requires actions != [] && Ends(w, next, actions[1..], done + first)
    requires Forward(DriverOf(w), g, actions) == Onward(first, result, Forward(DriverOf(w), next, actions[1..]))
    requires StartTorn(w, g, actions) == StartTorn(w, next, actions[1..])
    ensures Ends(w, g, actions, done)
  {
    hide DriverOf, Forward, StartTorn, NoRestarts, Halted;
    Regroup(done, first, Forward(DriverOf(w), next, actions[1..]).done);
  }

  lemma LateTail(actions: seq<Action>)
    requires actions != [] && StartsLate(actions)
    ensures StartsLate(actions[1..])
    ensures actions[0].kind.RuntimeStart? ==> NoWorkerStop(actions[1..])
    ensures NoWorkerStop(actions) ==> NoWorkerStop(actions[1..])
  {
    forall a | a in actions[1..] ensures a in actions {}
    if actions[0].kind.RuntimeStart? {
      forall a | a in actions[1..] ensures !a.kind.WorkerStop? {
        var j :| 0 <= j < |actions| - 1 && actions[1..][j] == a;
        assert actions[j + 1] == a;
      }
    }
  }

  lemma AccountedNext(w: World, g: Host, actions: seq<Action>, done: seq<Done<Undo>>)
    requires actions != [] && StartsLate(actions) && Accounted(g, actions, done) && ActiveStep(w, g, actions[0])
    ensures var a := actions[0];
            var (seen, inspection) := DriverOf(w).inspect(g, a);
            var (next, receipt) := DriverOf(w).apply(seen, a);
            && (inspection == Some(Satisfied) ==> Accounted(seen, actions[1..], done))
            && (inspection == Some(NeedsApply) && receipt.Some? ==>
                  Accounted(next, actions[1..], if receipt.value.changed then done + [Done(a, receipt.value)] else done))
  {
    hide DriverOf, StartsLate;
    var a := actions[0];
    var (seen, inspection) := DriverOf(w).inspect(g, a);
    var (next, receipt) := DriverOf(w).apply(seen, a);
    LateTail(actions);
    assert a in actions;
    if inspection == Some(NeedsApply) && receipt.Some? && receipt.value.changed {
      var item := Done(a, receipt.value);
      assert item in done + [item];
      assert Halted(done) ==> Halted(done + [item]);
      if a.kind.RuntimeStart? {
        StartReversible(actions);
        assert Halts(item);
      }
    }
  }

  lemma StartReversible(actions: seq<Action>)
    requires actions != [] && StartsLate(actions)
    ensures actions[0].kind.RuntimeStart? ==> actions[0].reversible
  {
  }

  lemma EndsHere(w: World, g: Host, actions: seq<Action>, done: seq<Done<Undo>>)
    requires actions != [] && Accounted(g, actions, done) && ActiveStep(w, g, actions[0])
    requires var (seen, inspection) := DriverOf(w).inspect(g, actions[0]);
             inspection != Some(Satisfied)
             && (inspection == Some(NeedsApply) ==> DriverOf(w).apply(seen, actions[0]).1.None?)
    ensures Ends(w, g, actions, done)
  {
    hide DriverOf, NoRestarts, Halted;
    assert done + [] == done;
  }

  lemma {:induction false} PassEnds(w: World, g: Host, actions: seq<Action>, done: seq<Done<Undo>>)
    requires StartsLate(actions) && Accounted(g, actions, done) && !Forward(DriverOf(w), g, actions).ok
    ensures Ends(w, g, actions, done)
    decreases |actions|
  {
    hide DriverOf, StartsLate, Accounted, ActiveStep, Ends, TornStart;
    var a, d := actions[0], DriverOf(w);
    var (seen, inspection) := d.inspect(g, a);
    var (next, receipt) := d.apply(seen, a);
    StepActive(w, g, a);
    AccountedNext(w, g, actions, done);
    LateTail(actions);
    if inspection == Some(Satisfied) {
      assert done + [] == done;
      PassEnds(w, seen, actions[1..], done);
      EndsOnward(w, g, actions, seen, done, [], Result(a.id, Skipped, false));
    } else if inspection == Some(NeedsApply) && receipt.Some? {
      var r := receipt.value;
      if r.changed {
        PassEnds(w, next, actions[1..], done + [Done(a, r)]);
        EndsOnward(w, g, actions, next, done, [Done(a, r)], Result(a.id, Applied, true));
      } else {
        assert done + [] == done;
        PassEnds(w, next, actions[1..], done);
        EndsOnward(w, g, actions, next, done, [], Result(a.id, Skipped, false));
      }
    } else {
      EndsHere(w, g, actions, done);
    }
  }

  // ------------------------------------------------------------------------ the rollback

  lemma UndoneActive(w: World, x: Host, item: Done<Undo>)
    requires Calm(w, x.tick) && NoRestarts([item]) && Undoable(item) && (x.active ==> x.live)
    ensures var y := Undone(w, x, item.action, item.receipt).0;
            y.tick >= x.tick && y.live == x.live && y.active == (x.active && !Halts(item))
  {
    assert item in [item];
    UndoneKeepsFiles(w, x, item.action, item.receipt);
    if item.action.kind.ReconcileWorker? {
      hide Install;
      var quiet := if x.live && x.active then StopService(w, x.(restartSafe := false)).0
                   else if x.live then x.(restartSafe := false) else x;
      InstallLoads(w, quiet, Some(item.receipt.undo.toml), Some(item.receipt.undo.unit));
    } else if Aside(item.action) {
      AsideUndone(w, x, item.action, item.receipt);
    }
  }

  lemma HaltedLast(front: seq<Done<Undo>>, last: Done<Undo>)
    ensures Halted(front + [last]) <==> Halted(front) || Halts(last)
    ensures NoRestarts(front + [last]) <==> NoRestarts(front) && NoRestarts([last])
  {
    assert last in front + [last] && last in [last];
  }

  /** A rollback that meets no failure leaves the service running exactly when it was and
      nothing undone stops it. */
  lemma {:induction false} RewindActive(w: World, x: Host, done: seq<Done<Undo>>)
    requires NoRestarts(done) && Calm(w, x.tick) && (x.active ==> x.live)
    ensures Unwound(DriverOf(w), x, Undos(done)).active <==> x.active && !Halted(done)
    decreases |done|
  {
    hide Calm, DriverOf, Undone, NoRestarts, Halted;
    if done == [] {
      assert Undos(done) == [];
      assert !Halted([]) by { NothingHalted(); }
    } else {
      var front, last := done[..|done| - 1], done[|done| - 1];
      assert done == front + [last];
      HaltedLast(front, last);
      UnwoundLast(w, x, front, last);
      var y := if Undoable(last) then Undone(w, x, last.action, last.receipt).0 else x;
      if Undoable(last) { UndoneActive(w, x, last); }
      CalmLater(w, x.tick, y.tick);
      hide Unwound, Undos;
      RewindActive(w, y, front);
    }
  }

  lemma NothingHalted()
    ensures !Halted([])
  {
  }

  /** A plan that fails on a host whose service is stopped, however it fails: as long as the
      rollback itself meets no failure, the service is running afterwards exactly when the
      failing call is a start that had come up and nothing that is undone stops it. */
  lemma FailureStopsService(w: World, h: Host, actions: seq<Action>)
    requires StartsLate(actions) && !h.active
    requires !Forward(DriverOf(w), h, actions).ok && Calm(w, Forward(DriverOf(w), h, actions).target.tick)
    ensures Outcome(DriverOf(w), h, actions, true).target.active <==>
              StartTorn(w, h, actions) && !Halted(Forward(DriverOf(w), h, actions).done)
  {
    hide DriverOf, StartTorn, StartsLate;
    var pass := Forward(DriverOf(w), h, actions);
    PassEnds(w, h, actions, []);
    assert [] + pass.done == pass.done;
    RewindActive(w, pass.target, pass.done);
  }

  lemma {:induction false} UndoneOnceDone<R>(done: seq<Done<R>>, item: Done<R>)
    requires item in done && Undoable(item)
    ensures item in Undos(done)
    decreases |done|
  {
    var front, last := done[..|done| - 1], done[|done| - 1];
    assert done == front + [last];
    if item != last { UndoneOnceDone(front, item); }
  }

  lemma {:induction false} StartsReported(w: World, x: Host, calls: seq<Done<Undo>>, item: Done<Undo>)
    requires Calm(w, x.tick) && item in calls && item.action.kind.RuntimeStart? && item.receipt.changed
    ensures Result(item.action.id, RolledBack, true) in UndoResults(DriverOf(w), x, calls)
    decreases |calls|
  {
    hide Calm, DriverOf, Undone;
    var first := calls[0];
    var y := Undone(w, x, first.action, first.receipt).0;
    DriverUndoes(w, x, first.action, first.receipt);
    if item == first {
      StartUndoes(w, x, item);
    } else {
      UndoneKeepsFiles(w, x, first.action, first.receipt);
      CalmLater(w, x.tick, y.tick);
      StartsReported(w, y, calls[1..], item);
    }
  }

  lemma StartUndoes(w: World, x: Host, item: Done<Undo>)
    requires Calm(w, x.tick) && item.action.kind.RuntimeStart? && item.receipt.changed
    ensures Undone(w, x, item.action, item.receipt).1 == Some(true)
  {
  }

  /** The rollback reports every start that it undoes as rolled back and changed. */
  lemma RollbackReportsStarts(w: World, h: Host, actions: seq<Action>, item: Done<Undo>)
    requires !Forward(DriverOf(w), h, actions).ok && Calm(w, Forward(DriverOf(w), h, actions).target.tick)
    requires item in Forward(DriverOf(w), h, actions).done && Undoable(item) && item.action.kind.RuntimeStart?
    ensures Result(item.action.id, RolledBack, true) in Outcome(DriverOf(w), h, actions, true).rollbacks
  {
    hide DriverOf, Calm;
    var pass := Forward(DriverOf(w), h, actions);
    UndoneOnceDone(pass.done, item);
    StartsReported(w, pass.target, Undos(pass.done), item);
  }

  // ----------------------------------------------------------------- a pass that succeeds

  lemma {:induction false} StaysRunning(w: World, g: Host, actions: seq<Action>)
    requires g.active && Forward(DriverOf(w), g, actions).ok && forall a :: a in actions ==> !Stops(a.kind)
    ensures Forward(DriverOf(w), g, actions).target.active
    decreases |actions|
  {
    hide DriverOf;
    if actions != [] {
      var a, d := actions[0], DriverOf(w);
      var (seen, inspection) := d.inspect(g, a);
      StepActive(w, g, a);
      assert forall b :: b in actions[1..] ==> b in actions;
      if inspection == Some(Satisfied) { StaysRunning(w, seen, actions[1..]); }
      else { StaysRunning(w, d.apply(seen, a).0, actions[1..]); }
    }
  }

  /** A pass that goes through leaves the service running, if nothing after its start stops it. */
  lemma {:induction false} PassLeavesRunning(w: World, g: Host, actions: seq<Action>, k: nat)
    requires k < |actions| && actions[k].kind.RuntimeStart? && Forward(DriverOf(w), g, actions).ok
    requires forall a :: a in actions[k + 1..] ==> !Stops(a.kind)
    ensures Forward(DriverOf(w), g, actions).target.active
    decreases |actions|
  {
    hide DriverOf;
    var a, d := actions[0], DriverOf(w);
    var (seen, inspection) := d.inspect(g, a);
    StepActive(w, g, a);
    var next := if inspection == Some(Satisfied) then seen else d.apply(seen, a).0;
    if k == 0 {
      StaysRunning(w, next, actions[1..]);
    } else {
      assert actions[1..][k - 1 + 1..] == actions[k + 1..];
      PassLeavesRunning(w, next, actions[1..], k - 1);
    }
  }

  // ------------------------------------------------------------------------ built plans

  predicate OneStart(actions: seq<Action>) {
    forall i, j :: 0 <= i < j < |actions| && actions[i].kind.RuntimeStart? ==> !actions[j].kind.RuntimeStart?
  }

  lemma {:induction false} NeverTorn(w: World, g: Host, actions: seq<Action>)
    requires forall a :: a in actions ==> !a.kind.RuntimeStart?
    ensures !StartTorn(w, g, actions)
    decreases |actions|
  {
    hide DriverOf;
    if actions != [] {
      var (seen, inspection) := DriverOf(w).inspect(g, actions[0]);
      assert forall a :: a in actions[1..] ==> a in actions;
      NeverTorn(w, seen, actions[1..]);
      NeverTorn(w, DriverOf(w).apply(seen, actions[0]).0, actions[1..]);
    }
  }

  lemma {:induction false} DoneFrom<T, R>(d: Driver<T, R>, t: T, actions: seq<Action>)
    ensures forall item :: item in Forward(d, t, actions).done ==> item.action in actions
    decreases |actions|
  {
    if actions != [] {
      var (seen, inspection) := d.inspect(t, actions[0]);
      DoneFrom(d, seen, actions[1..]);
      DoneFrom(d, d.apply(seen, actions[0]).0, actions[1..]);
    }
  }

  /** The only start of a plan is not applied when it is torn. */
  lemma {:induction false} TornStartNotDone(w: World, g: Host, actions: seq<Action>)
    requires OneStart(actions) && StartTorn(w, g, actions)
    ensures forall item :: item in Forward(DriverOf(w), g, actions).done ==> !item.action.kind.RuntimeStart?
    decreases |actions|
  {
    hide DriverOf;
    var a, d := actions[0], DriverOf(w);
    var (seen, inspection) := d.inspect(g, a);
    var next := if inspection == Some(Satisfied) then seen else d.apply(seen, a).0;
    if inspection == Some(Satisfied) || d.apply(seen, a).1.Some? {
      if a.kind.RuntimeStart? {
        forall b | b in actions[1..] ensures !b.kind.RuntimeStart? {
          var j :| 0 <= j < |actions| - 1 && actions[1..][j] == b;
          assert actions[j + 1] == b;
        }
        NeverTorn(w, next, actions[1..]);
      } else {
        TornStartNotDone(w, next, actions[1..]);
      }
    }
  }

  lemma PlannedStart(intent: P.Intent, actions: seq<Action>) returns (k: nat)
    requires P.WellMarked(actions) && P.KindsOf(actions) == P.PlannedKinds(intent)
    ensures k < |actions| && actions[k].kind.RuntimeStart? && StartsLate(actions) && OneStart(actions)
    ensures forall a :: a in actions[k + 1..] ==> !Stops(a.kind)
    ensures !intent.reconcileWorker ==> forall a :: a in actions ==> !a.kind.ReconcileWorker?
  {
    hide P.Id, P.PlannedKinds;
    var kinds := P.KindsOf(actions);
    assert |kinds| == |actions| && forall i :: 0 <= i < |actions| ==> kinds[i] == actions[i].kind;
    P.StartComesLate(intent);
    k := |actions| - 2;
    assert kinds[k] == RuntimeStart && forall j :: 0 <= j < |actions| && j != k ==> kinds[j] != RuntimeStart;
    forall a | a in actions && a.kind.RuntimeStart? ensures a.reversible {
      var i :| 0 <= i < |actions| && actions[i] == a;
    }
    assert actions[k + 1..] == [actions[k + 1]];
    forall a | a in actions && !intent.reconcileWorker ensures !a.kind.ReconcileWorker? {
      var i :| 0 <= i < |actions| && actions[i] == a;
      P.PlanOnlyHas(intent, actions, i);
    }
  }

  /** A built plan on a host whose service is stopped: it goes through and leaves the service
      running, or it fails and the rollback leaves the service stopped, unless the failing
      call is the start itself and the service had come up; without a Worker migration that
      is exactly when it is left running. */
  lemma PlannedService(w: World, h: Host, intent: P.Intent, actions: seq<Action>)
    requires P.WellMarked(actions) && P.KindsOf(actions) == P.PlannedKinds(intent) && !h.active
    requires var pass := Forward(DriverOf(w), h, actions); pass.ok || Calm(w, pass.target.tick)
    ensures var t := Outcome(DriverOf(w), h, actions, true).target;
            && (Forward(DriverOf(w), h, actions).ok ==> t.active)
            && (!Forward(DriverOf(w), h, actions).ok && t.active ==> StartTorn(w, h, actions))
            && (!Forward(DriverOf(w), h, actions).ok && !intent.reconcileWorker ==> (t.active <==> StartTorn(w, h, actions)))
  {
    hide DriverOf, StartTorn, StartsLate, Calm, P.WellMarked, P.KindsOf, P.PlannedKinds;
    var k := PlannedStart(intent, actions);
    var pass := Forward(DriverOf(w), h, actions);
    if pass.ok {
      PassLeavesRunning(w, h, actions, k);
    } else {
      FailureStopsService(w, h, actions);
      DoneFrom(DriverOf(w), h, actions);
      if StartTorn(w, h, actions) { TornStartNotDone(w, h, actions); }
    }
  }
}
