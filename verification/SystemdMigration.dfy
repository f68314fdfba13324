/** A whole migration of a running smoke Worker: whatever stops it, and wherever its one
    failing call is, the rollback brings the Worker back, with one exception. */
module SystemdMigration {
  import opened Contracts
  import opened SetupApply
  import opened Systemd
  import opened SystemdRestore
  import UnitMigration
  import P = Planner

  // --------------------------------------------------------- what a migration is made of

  /** Actions that touch neither the Worker's config and unit nor its service. */
  predicate Aside(a: Action) {
    a.kind.EnsureDirectory? || a.kind.EnsurePackage? || a.kind.EnsureDriverBridge? || a.kind.RenderConfig?
    || a.kind.VerifyModel? || a.kind.DownloadModel? || a.kind.ConvertModel?
  }

  /** Checks after the reconciliation; they are planned as irreversible. */
  predicate Check(a: Action) {
    (a.kind.Preflight? || a.kind.HealthCheck?) && !a.reversible
  }

  /** Stages of a migration: 0 before the stop, 1 after it, 2 after the reconciliation. */
  predicate Fits(a: Action, n: nat) {
    match n
    case 0 => Aside(a) || (a.kind.WorkerStop? && a.reversible)
    case 1 => a.kind.ReconcileWorker? && a.reversible
    case _ => Check(a) || (a.kind.RuntimeStart? && a.reversible)
  }

  function NextStage(a: Action, n: nat): nat {
    if a.kind.WorkerStop? then 1 else if a.kind.ReconcileWorker? then 2 else n
  }

  /** A migration plan, or the rest of one from stage `n` on. */
  predicate Migration(actions: seq<Action>, n: nat)
    decreases |actions|
  {
    actions == [] || (Fits(actions[0], n) && Migration(actions[1..], NextStage(actions[0], n)))
  }

  /** Where host `x` stands when stage `n` of the migration of `h` is reached or undone to. */
  predicate Stage(h: Host, x: Host, n: nat) {
    match n
    case 0 => SameWorker(h, x)
    case 1 => SameWorker(h.(active := false), x)
    case _ => x.live
  }

  const STOPPED := Receipt(true, WasActive)

  function Reconciled(h: Host): Receipt<Undo> {
    Receipt(true, Previous(h.toml, h.unit))
  }

  /** What may be pushed on the applied actions of the migration of `h` at stage `n`. */
  predicate Pushes(h: Host, item: Done<Undo>, n: nat) {
    Fits(item.action, n)
    && (item.action.kind.WorkerStop? ==> item.receipt == STOPPED)
    && (item.action.kind.ReconcileWorker? ==> item.receipt == Reconciled(h))
  }

  /** The applied actions lead from stage 0 to stage `n`. */
  predicate Stacked(h: Host, done: seq<Done<Undo>>, n: nat)
    decreases |done|
  {
    if done == [] then n == 0
    else
      var front, last := done[..|done| - 1], done[|done| - 1];
      exists m :: 0 <= m <= 2 && Stacked(h, front, m) && Pushes(h, last, m) && n == NextStage(last.action, m)
  }

  ghost predicate AtMostOneFault(w: World) {
    forall i: nat, j: nat :: !w.faults(i).Fine? && !w.faults(j).Fine? ==> i == j
  }

  lemma ContractOf(w: World, h: Host, x: Host)
    requires x.toml == h.toml && x.unit == h.unit
    ensures Contract(w, x) == Contract(w, h)
  {
  }

  // -------------------------------------------------------------------- one step forward

  lemma AsideApplies(w: World, g: Host, a: Action)
    requires Aside(a)
    ensures var t := Apply(w, g, a).0; t == g.(files := t.files, rest := t.rest, tick := t.tick)
    ensures var t := DriverOf(w).inspect(g, a).0; t == g.(rest := t.rest)
  {
    hide WriteAll, RestoreAll, RenderBlocked, Inspect, ApplyStop, ApplyReconcile, ApplyRelease, StartService, Undone;
    if a.kind.RenderConfig? && w.targets(a).Some? {
      var items := Planned(g, w.targets(a).value);
      var (next, written, ok) := WriteAll(w, g, items);
      WriteAllAside(w, g, items);
      RestoreAllAside(w, next, written);
    }
  }

  lemma AsideUndone(w: World, x: Host, a: Action, r: Receipt<Undo>)
    requires Aside(a)
    ensures var t := Undone(w, x, a, r).0; t == x.(files := t.files, rest := t.rest, tick := t.tick) && t.tick >= x.tick
  {
    hide RestoreAll;
    var items := if r.undo.Files? then r.undo.items else [];
    if a.kind.RenderConfig? {
      RestoreAllAside(w, x, items);
      RestoreTicks(w, x, items);
    }
  }

  lemma StopInspected(w: World, h: Host, g: Host, a: Action)
    requires RunningSmoke(w, h) && SameWorker(h, g) && a.kind.WorkerStop?
    ensures Inspect(w, g, a) == Some(if w.reviewed(a) then NeedsApply else Blocked)
    ensures w.reviewed(a) ==>
              Apply(w, g, a) == (StopService(w, g).0, if StopService(w, g).1 then Some(STOPPED) else None)
  {
    hide UnitMigration.Parse, Contract, StopService;
    hide InspectReconcile, InspectRender, ApplyReconcile, ApplyRender, ApplyRelease, StartService;
    ContractOf(w, h, g);
  }

  lemma ReconcileInspected(w: World, h: Host, g: Host, a: Action)
    requires RunningSmoke(w, h) && SameWorker(h.(active := false), g) && a.kind.ReconcileWorker?
    ensures Inspect(w, g, a) == Some(if w.reviewed(a) then NeedsApply else Blocked)
    ensures Apply(w, g, a) == ApplyReconcile(w, g, a)
    ensures InspectReconcile(w, g, a) == if w.reviewed(a) then NeedsApply else Blocked
  {
    hide UnitMigration.Parse, UnitMigration.Render, Contract;
    hide InspectStop, InspectRender, ApplyStop, ApplyReconcile, ApplyRender, ApplyRelease, StartService;
    ContractOf(w, h, g);
  }

  /** Rendering a smoke Worker changes both files. */
  lemma RenderChanges(w: World, h: Host, g: Host, a: Action)
    requires Valid(w) && RendersRuntime(w) && RunningSmoke(w, h) && SameWorker(h.(active := false), g)
    requires a.kind.ReconcileWorker? && w.reviewed(a)
    ensures w.renderToml(g.toml).Some? ==> w.renderToml(g.toml).value != g.toml
    ensures UnitMigration.Render(w.template, g.unit).Some? ==> UnitMigration.Render(w.template, g.unit).value != g.unit
  {
    ReconcileInspected(w, h, g, a);
    ContractIsSmoke(w, h);
    if UnitMigration.Render(w.template, g.unit).Some? { ReconcileRewrites(w, g, a); }
    hide UnitMigration.Parse, UnitMigration.Render, Contract;
  }

  lemma ContractIsSmoke(w: World, h: Host)
    requires Contract(w, h) == Some(false)
    ensures w.tomlMode(h.toml) == Some(false)
  {
    hide UnitMigration.Parse;
  }

  lemma InstallTicks(w: World, h: Host, toml: string, unit: string)
    requires h.live
    ensures var (t, ok) := Install(w, h, Some(toml), Some(unit));
            && h.tick <= t.tick <= h.tick + 3
            && (!ok ==> t.tick > h.tick && !w.faults(t.tick - 1).Fine?)
            && (ok ==> t == h.(toml := toml, unit := unit, loaded := unit, tick := h.tick + 3))
  {
  }

  lemma OneFaultThenCalm(w: World, k: nat)
    requires AtMostOneFault(w) && !w.faults(k).Fine?
    ensures Calm(w, k + 1)
  {
  }

  lemma SmokeLoaded(w: World, h: Host)
    requires RunningSmoke(w, h)
    ensures h.live && h.loaded == h.unit
  {
  }

  /** The reconciliation of a stopped smoke Worker either goes through, or, when at most one
      call fails, gives back what it changed. */
  lemma ReconcileSteps(w: World, h: Host, g: Host, a: Action)
    requires Valid(w) && RendersRuntime(w) && RunningSmoke(w, h) && SameWorker(h.(active := false), g)
    requires a.kind.ReconcileWorker? && w.reviewed(a) && AtMostOneFault(w)
    ensures var (t, r) := ApplyReconcile(w, g, a);
            (r.None? ==> SameWorker(h.(active := false), t)) && (r.Some? ==> r.value == Reconciled(h) && t.live)
  {
    hide UnitMigration.Parse, UnitMigration.Render, Contract, InspectReconcile, ApplyReconcile, Install;
    hide Valid, RendersRuntime, RunningSmoke, AtMostOneFault, Inspect, Apply;
    SmokeLoaded(w, h);
    ReconcileInspected(w, h, g, a);
    RenderChanges(w, h, g, a);
    var toml, unit := w.renderToml(g.toml), UnitMigration.Render(w.template, g.unit);
    if toml.Some? && unit.Some? {
      var unsafe := g.(restartSafe := false);
      var (t, ok) := Install(w, unsafe, Some(toml.value), Some(unit.value));
      InstallTicks(w, unsafe, toml.value, unit.value);
      InstallLoads(w, unsafe, Some(toml.value), Some(unit.value));
      if !ok {
        OneFaultThenCalm(w, t.tick - 1);
        ReconcileFailsWithInstall(w, g, a, toml.value, unit.value);
        ReconcileRaisesClean(w, g, a, toml.value, unit.value);
      } else {
        ReconcileGoesThrough(w, g, a, toml.value, unit.value);
      }
    } else {
      NothingRendered(w, g, a);
    }
  }

  lemma NothingRendered(w: World, g: Host, a: Action)
    requires g.live && InspectReconcile(w, g, a).NeedsApply?
    requires w.renderToml(g.toml).None? || UnitMigration.Render(w.template, g.unit).None?
    ensures ApplyReconcile(w, g, a) == (g, None)
  {
    hide UnitMigration.Render, UnitMigration.Parse, Contract, Install, InspectReconcile;
  }

  lemma ReconcileFailsWithInstall(w: World, g: Host, a: Action, toml: string, unit: string)
    requires g.live && InspectReconcile(w, g, a).NeedsApply? && toml != g.toml && unit != g.unit
    requires w.renderToml(g.toml) == Some(toml) && UnitMigration.Render(w.template, g.unit) == Some(unit)
    requires !Install(w, g.(restartSafe := false), Some(toml), Some(unit)).1
    ensures ApplyReconcile(w, g, a).1.None?
  {
    hide UnitMigration.Render, UnitMigration.Parse, Contract, Install, InspectReconcile;
  }

  lemma ReconcileGoesThrough(w: World, g: Host, a: Action, toml: string, unit: string)
    requires g.live && !g.active && InspectReconcile(w, g, a).NeedsApply? && toml != g.toml && unit != g.unit
    requires w.renderToml(g.toml) == Some(toml) && UnitMigration.Render(w.template, g.unit) == Some(unit)
    requires Install(w, g.(restartSafe := false), Some(toml), Some(unit)).1
    ensures ApplyReconcile(w, g, a) ==
            (Install(w, g.(restartSafe := false), Some(toml), Some(unit)).0.(restartSafe := true),
             Some(Receipt(true, Previous(g.toml, g.unit))))
  {
    InstallLoads(w, g.(restartSafe := false), Some(toml), Some(unit));
    hide UnitMigration.Render, UnitMigration.Parse, Contract, Install, InspectReconcile;
  }

  /** The call stops the service and fails all the same. */
  predicate TornStop(w: World, g: Host, a: Action) {
    a.kind.WorkerStop? && w.reviewed(a) && w.faults(g.tick).After?
  }

  /** What inspecting and applying one action does to the stage. */
  predicate Advances(w: World, h: Host, g: Host, a: Action, n: nat) {
    var (seen, inspection) := DriverOf(w).inspect(g, a);
    var (next, receipt) := DriverOf(w).apply(seen, a);
    && Stage(h, seen, n)
    && (inspection == Some(Satisfied) ==> NextStage(a, n) == n)
    && (inspection == Some(NeedsApply) && receipt.None? ==>
          if TornStop(w, g, a) then SameWorker(h.(active := false), next) else Stage(h, next, n))
    && (inspection == Some(NeedsApply) && receipt.Some? ==>
          && !TornStop(w, g, a)
          && Stage(h, next, NextStage(a, n))
          && (if receipt.value.changed then Pushes(h, Done(a, receipt.value), n) else NextStage(a, n) == n))
  }

  lemma DriverHandles(w: World, g: Host, a: Action)
    requires HandledHere(a.kind)
    ensures DriverOf(w).inspect(g, a) == (g, Inspect(w, g, a)) && DriverOf(w).apply(g, a) == Apply(w, g, a)
  {
    hide Inspect, Apply;
  }

  lemma StopEffect(w: World, h: Host, g: Host)
    requires SameWorker(h, g)
    ensures var (t, ok) := StopService(w, g);
            && (ok <==> w.faults(g.tick).Fine?)
            && SameWorker(if w.faults(g.tick).Before? then h else h.(active := false), t)
  {
  }

  lemma StopAdvances(w: World, h: Host, g: Host, a: Action)
    requires RunningSmoke(w, h) && SameWorker(h, g) && a.kind.WorkerStop? && a.reversible
    ensures Advances(w, h, g, a, 0)
  {
    hide Inspect, Apply, RunningSmoke, StopService, DriverOf, SameWorker;
    StopInspected(w, h, g, a);
    DriverHandles(w, g, a);
    StopEffect(w, h, g);
  }

  lemma ReconcileAdvances(w: World, h: Host, g: Host, a: Action)
    requires Valid(w) && RendersRuntime(w) && RunningSmoke(w, h) && SameWorker(h.(active := false), g)
    requires a.kind.ReconcileWorker? && a.reversible && AtMostOneFault(w)
    ensures Advances(w, h, g, a, 1)
  {
    hide Inspect, Apply, ApplyReconcile, InspectReconcile, RunningSmoke, DriverOf, SameWorker, Valid, RendersRuntime, AtMostOneFault;
    ReconcileInspected(w, h, g, a);
    DriverHandles(w, g, a);
    if w.reviewed(a) { ReconcileSteps(w, h, g, a); }
  }

  lemma AsideAdvances(w: World, h: Host, g: Host, a: Action)
    requires SameWorker(h, g) && Aside(a)
    ensures Advances(w, h, g, a, 0)
  {
    AsideApplies(w, g, a);
    AsideApplies(w, DriverOf(w).inspect(g, a).0, a);
    hide Inspect, Apply;
  }

  lemma LateAdvances(w: World, h: Host, g: Host, a: Action)
    requires g.live && Fits(a, 2)
    ensures Advances(w, h, g, a, 2)
  {
    hide InspectStop, InspectReconcile, InspectRender, ApplyStop, ApplyReconcile, ApplyRender, ApplyRelease, Undone;
  }

  lemma StepAdvances(w: World, h: Host, g: Host, a: Action, n: nat)
    requires Valid(w) && RendersRuntime(w) && RunningSmoke(w, h) && AtMostOneFault(w)
    requires n <= 2 && Fits(a, n) && Stage(h, g, n)
    ensures Advances(w, h, g, a, n)
  {
    hide Advances, Valid, RendersRuntime, RunningSmoke, AtMostOneFault;
    if n == 2 { LateAdvances(w, h, g, a); }
    else if n == 1 { ReconcileAdvances(w, h, g, a); }
    else if Aside(a) { AsideAdvances(w, h, g, a); }
    else { StopAdvances(w, h, g, a); }
  }

  // ------------------------------------------------------------------- one step back

  /** Undoing one applied action leads back to the stage before it. */
  lemma StepBack(w: World, h: Host, x: Host, item: Done<Undo>, n: nat)
    requires RunningSmoke(w, h) && n <= 2 && Pushes(h, item, n)
    requires Stage(h, x, NextStage(item.action, n)) && Calm(w, x.tick)
    ensures !Undoable(item) ==> Stage(h, x, n)
    ensures Undoable(item) ==> var y := Undone(w, x, item.action, item.receipt).0; Stage(h, y, n) && y.tick >= x.tick
  {
    var a := item.action;
    hide RunningSmoke, Calm, Undone;
    if a.kind.WorkerStop? {
      StopRollsBack(w, h, x, a);
    } else if a.kind.ReconcileWorker? {
      SmokeLoaded(w, h);
      ReconcileRollsBack(w, h, x, a, item.receipt);
    } else if Aside(a) {
      AsideUndone(w, x, a, item.receipt);
    } else if a.kind.RuntimeStart? {
      StartUndone(w, x, a, item.receipt);
    }
  }

  lemma StartUndone(w: World, x: Host, a: Action, r: Receipt<Undo>)
    requires a.kind.RuntimeStart? && x.live
    ensures var y := Undone(w, x, a, r).0; y.live && y.tick >= x.tick
  {
  }

  lemma DriverUndoes(w: World, x: Host, a: Action, r: Receipt<Undo>)
    ensures DriverOf(w).rollback(x, a, r) == Undone(w, x, a, r)
  {
    hide Undone;
  }

  lemma UnwoundLast(w: World, x: Host, front: seq<Done<Undo>>, last: Done<Undo>)
    ensures Unwound(DriverOf(w), x, Undos(front + [last])) ==
            Unwound(DriverOf(w), if Undoable(last) then Undone(w, x, last.action, last.receipt).0 else x, Undos(front))
  {
    hide Undos, Undone, DriverOf;
    UndosLast(front, last);
    DriverUndoes(w, x, last.action, last.receipt);
    var calls := SetupApply.Undo(last) + Undos(front);
    if Undoable(last) {
      assert calls[0] == last && calls[1..] == Undos(front);
    } else {
      assert calls == Undos(front);
    }
  }

  /** From any stage a rollback without further failures brings the smoke Worker back. */
  lemma {:induction false} Rewind(w: World, h: Host, x: Host, done: seq<Done<Undo>>, n: nat)
    requires RunningSmoke(w, h) && n <= 2 && Stacked(h, done, n) && Stage(h, x, n) && Calm(w, x.tick)
    ensures SameWorker(h, Unwound(DriverOf(w), x, Undos(done)))
    decreases |done|
  {
    hide RunningSmoke, Calm, DriverOf, Undone, Pushes, NextStage, Undoable;
    if done == [] {
      assert Undos(done) == [];
    } else {
      var front, last := done[..|done| - 1], done[|done| - 1];
      assert done == front + [last];
      var m :| 0 <= m <= 2 && Stacked(h, front, m) && Pushes(h, last, m) && n == NextStage(last.action, m);
      hide Stage, Stacked, SameWorker;
      StepBack(w, h, x, last, m);
      UnwoundLast(w, x, front, last);
      var y := if Undoable(last) then Undone(w, x, last.action, last.receipt).0 else x;
      CalmLater(w, x.tick, y.tick);
      Rewind(w, h, y, front, m);
    }
  }

  /** Undoing what precedes the stop leaves the Worker as it is. */
  lemma {:induction false} RewindAside(w: World, h: Host, k: Host, x: Host, done: seq<Done<Undo>>)
    requires Stacked(h, done, 0) && SameWorker(k, x)
    ensures SameWorker(k, Unwound(DriverOf(w), x, Undos(done)))
    decreases |done|
  {
    if done == [] {
      assert Undos(done) == [];
    } else {
      hide DriverOf, Undone;
      var front, last := done[..|done| - 1], done[|done| - 1];
      assert done == front + [last];
      assert Stacked(h, front, 0) && Aside(last.action);
      UnwoundLast(w, x, front, last);
      AsideUndone(w, x, last.action, last.receipt);
      hide Stacked, Unwound, Undos;
      RewindAside(w, h, k, if Undoable(last) then Undone(w, x, last.action, last.receipt).0 else x, front);
    }
  }

  // ------------------------------------------------------------------ the whole pass

  /** The pass reaches the stop, whose call stops the service and fails all the same. */
  predicate StopTorn(w: World, g: Host, actions: seq<Action>)
    decreases |actions|
  {
    actions != [] &&
    var a := actions[0];
    var (seen, inspection) := DriverOf(w).inspect(g, a);
    var (next, receipt) := DriverOf(w).apply(seen, a);
    if inspection == Some(Satisfied) then StopTorn(w, seen, actions[1..])
    else inspection == Some(NeedsApply) && (if receipt.None? then TornStop(w, g, a) else StopTorn(w, next, actions[1..]))
  }

  /** Where a pass that fails has got to, with `done` applied before it. */
  predicate Reached(w: World, h: Host, g: Host, actions: seq<Action>, done: seq<Done<Undo>>, n: nat) {
    var pass := Forward(DriverOf(w), g, actions);
    if StopTorn(w, g, actions) then n == 0 && Stacked(h, done + pass.done, n) && SameWorker(h.(active := false), pass.target)
    else n <= 2 && Stacked(h, done + pass.done, n) && Stage(h, pass.target, n)
  }

  lemma StackedNext(h: Host, done: seq<Done<Undo>>, item: Done<Undo>, n: nat)
    requires n <= 2 && Stacked(h, done, n) && Pushes(h, item, n)
    ensures Stacked(h, done + [item], NextStage(item.action, n))
  {
    hide Pushes, NextStage;
    assert (done + [item])[..|done|] == done;
  }

  lemma ReachedOnward(w: World, h: Host, g: Host, actions: seq<Action>, next: Host, done: seq<Done<Undo>>,
                      first: seq<Done<Undo>>, result: Result, n: nat)
    requires actions != [] && Reached(w, h, next, actions[1..], done + first, n)
    requires Forward(DriverOf(w), g, actions) == Onward(first, result, Forward(DriverOf(w), next, actions[1..]))
    requires StopTorn(w, g, actions) == StopTorn(w, next, actions[1..])
    ensures Reached(w, h, g, actions, done, n)
  {
    hide DriverOf, Forward, StopTorn, Stacked, Stage, SameWorker;
    Regroup(done, first, Forward(DriverOf(w), next, actions[1..]).done);
  }

  lemma {:induction false} Progress(w: World, h: Host, g: Host, actions: seq<Action>, done: seq<Done<Undo>>, n: nat)
    returns (m: nat)
    requires Valid(w) && RendersRuntime(w) && RunningSmoke(w, h) && AtMostOneFault(w)
    requires n <= 2 && Migration(actions, n) && Stage(h, g, n) && Stacked(h, done, n)
    requires !Forward(DriverOf(w), g, actions).ok
    ensures Reached(w, h, g, actions, done, m)
    decreases |actions|
  {
    hide Valid, RendersRuntime, RunningSmoke, AtMostOneFault, DriverOf, Stage, Stacked, Pushes, TornStop, SameWorker, Reached;
    var a, d := actions[0], DriverOf(w);
    var (seen, inspection) := d.inspect(g, a);
    var (next, receipt) := d.apply(seen, a);
    StepAdvances(w, h, g, a, n);
    if inspection == Some(Satisfied) {
      m := Progress(w, h, seen, actions[1..], done, n);
      assert done + [] == done;
      ReachedOnward(w, h, g, actions, seen, done, [], Result(a.id, Skipped, false), m);
    } else if inspection == Some(NeedsApply) && receipt.Some? {
      var r := receipt.value;
      if r.changed {
        StackedNext(h, done, Done(a, r), n);
        m := Progress(w, h, next, actions[1..], done + [Done(a, r)], NextStage(a, n));
        ReachedOnward(w, h, g, actions, next, done, [Done(a, r)], Result(a.id, Applied, true), m);
      } else {
        m := Progress(w, h, next, actions[1..], done, n);
        assert done + [] == done;
        ReachedOnward(w, h, g, actions, next, done, [], Result(a.id, Skipped, false), m);
      }
    } else {
      m := n;
      StopsHere(w, h, g, actions, done, n);
    }
  }

  lemma StopsHere(w: World, h: Host, g: Host, actions: seq<Action>, done: seq<Done<Undo>>, n: nat)
    requires actions != [] && n <= 2 && Fits(actions[0], n) && Stacked(h, done, n) && Advances(w, h, g, actions[0], n)
    requires var (seen, inspection) := DriverOf(w).inspect(g, actions[0]);
             inspection != Some(Satisfied)
             && (inspection == Some(NeedsApply) ==> DriverOf(w).apply(seen, actions[0]).1.None?)
    ensures Reached(w, h, g, actions, done, n)
  {
    hide DriverOf, Stage, Stacked, SameWorker;
    assert done + [] == done;
  }

  /** A migration of a running smoke Worker that fails, whether a call fails, an inspection
      blocks, the preflight refuses or the health check does: as long as the rollback itself
      meets no failure, config, unit, loaded unit and the running service are given back,
      unless the failing call is the stop and it had already stopped the service. */
  lemma OneFailureRestores(w: World, h: Host, actions: seq<Action>)
    requires Valid(w) && RendersRuntime(w) && RunningSmoke(w, h) && Migration(actions, 0)
    requires AtMostOneFault(w) && Calm(w, Forward(DriverOf(w), h, actions).target.tick)
    requires !Forward(DriverOf(w), h, actions).ok
    ensures var report := Outcome(DriverOf(w), h, actions, true);
            !report.succeeded && (SameWorker(h, report.target) <==> !StopTorn(w, h, actions))
  {
    var pass := Forward(DriverOf(w), h, actions);
    SmokeIsItself(w, h);
    var n := Progress(w, h, h, actions, [], 0);
    assert [] + pass.done == pass.done;
    if StopTorn(w, h, actions) {
      RewindAside(w, h, h.(active := false), pass.target, pass.done);
    } else {
      Rewind(w, h, pass.target, pass.done, n);
    }
  }

  lemma SmokeIsItself(w: World, h: Host)
    requires RunningSmoke(w, h)
    ensures h.active && SameWorker(h, h)
  {
  }

  // ------------------------------------------------------------------ planned migrations

  lemma MigrationAside(actions: seq<Action>)
    requires actions != [] && Aside(actions[0]) && Migration(actions[1..], 0)
    ensures Migration(actions, 0)
  {
  }

  lemma {:induction false} AsideFirst(actions: seq<Action>, k: nat)
    requires k <= |actions| && (forall i :: 0 <= i < k ==> Aside(actions[i])) && Migration(actions[k..], 0)
    ensures Migration(actions, 0)
    decreases k
  {
    hide Migration, Aside;
    if k == 0 {
      assert actions[0..] == actions;
    } else {
      assert actions[1..][k - 1..] == actions[k..];
      forall i | 0 <= i < k - 1 ensures Aside(actions[1..][i]) { assert Aside(actions[i + 1]); }
      AsideFirst(actions[1..], k - 1);
      assert Aside(actions[0]);
      MigrationAside(actions);
    }
  }

  lemma FiveActions(a: Action, b: Action, c: Action, d: Action, e: Action)
    requires a.kind.WorkerStop? && a.reversible && b.kind.ReconcileWorker? && b.reversible
    requires Check(c) && d.kind.RuntimeStart? && d.reversible && Check(e)
    ensures Migration([a, b, c, d, e], 0)
  {
    assert [e][1..] == [] && Migration([], 2);
    assert [d, e][1..] == [e] && Migration([e], 2);
    assert [c, d, e][1..] == [d, e] && Migration([d, e], 2);
    assert [b, c, d, e][1..] == [c, d, e] && Migration([c, d, e], 2);
    assert [a, b, c, d, e][1..] == [b, c, d, e] && Migration([b, c, d, e], 1);
  }

  lemma PreambleKinds(intent: P.Intent)
    ensures forall j :: 0 <= j < |P.Preamble(intent)| ==>
              var k := P.Preamble(intent)[j];
              k.EnsureDirectory? || k.EnsurePackage? || k.EnsureDriverBridge? || k.RenderConfig?
              || k.VerifyModel? || k.DownloadModel? || k.ConvertModel?
  {
  }

  lemma KindAt(actions: seq<Action>, i: nat)
    requires P.WellMarked(actions) && i < |actions|
    ensures P.KindsOf(actions)[i] == actions[i].kind && (actions[i].reversible <==> P.PlannedReversible(actions[i].kind))
  {
    hide P.Id;
  }

  /** Every migration plan the planner builds has this shape. */
  lemma PlannedMigration(intent: P.Intent, actions: seq<Action>)
    requires intent.reconcileWorker && P.WellMarked(actions) && P.KindsOf(actions) == P.PlannedKinds(intent)
    ensures Migration(actions, 0)
  {
    hide Migration, P.WellMarked;
    var stop := P.MigrationOrder(intent);
    PreambleKinds(intent);
    assert |actions| == |P.KindsOf(actions)|;
    hide P.Preamble, P.KindsOf;
    forall i | 0 <= i < stop ensures Aside(actions[i]) {
      KindAt(actions, i);
      assert P.PlannedKinds(intent)[i] == P.Preamble(intent)[i];
    }
    KindAt(actions, stop);
    KindAt(actions, stop + 1);
    KindAt(actions, stop + 2);
    KindAt(actions, stop + 3);
    KindAt(actions, stop + 4);
    FiveActions(actions[stop], actions[stop + 1], actions[stop + 2], actions[stop + 3], actions[stop + 4]);
    assert actions[stop..] == [actions[stop], actions[stop + 1], actions[stop + 2], actions[stop + 3], actions[stop + 4]];
    AsideFirst(actions, stop);
  }

  // ---------------------------------------------------------- where a migration arrives

  /** The Worker with both files rendered, the rendered unit loaded and the flag up. */
  predicate Arrived(w: World, h: Host, x: Host) {
    && x.live && x.restartSafe && x.loaded == x.unit
    && w.renderToml(h.toml) == Some(x.toml) && UnitMigration.Render(w.template, h.unit) == Some(x.unit)
  }

  predicate Has(actions: seq<Action>, k: Kind) {
    exists i :: 0 <= i < |actions| && actions[i].kind == k
  }

  /** Stage `n` of a pass in which nothing has failed. */
  predicate At(w: World, h: Host, x: Host, n: nat) {
    if n == 2 then Arrived(w, h, x) else n < 2 && Stage(h, x, n)
  }

  /** The pass goes on from `g` past `a` at `x`. */
  predicate GoesOn(w: World, g: Host, a: Action, x: Host) {
    var (seen, inspection) := DriverOf(w).inspect(g, a);
    var (next, receipt) := DriverOf(w).apply(seen, a);
    (inspection == Some(Satisfied) && x == seen) || (inspection == Some(NeedsApply) && receipt.Some? && x == next)
  }

  lemma ReconcileArrives(w: World, h: Host, g: Host, a: Action, x: Host)
    requires Valid(w) && RendersRuntime(w) && RunningSmoke(w, h) && SameWorker(h.(active := false), g)
    requires a.kind.ReconcileWorker? && GoesOn(w, g, a, x)
    ensures Arrived(w, h, x)
  {
    hide UnitMigration.Parse, UnitMigration.Render, Contract, InspectReconcile, Apply, Inspect, DriverOf, Install;
    DriverHandles(w, g, a);
    ReconcileInspected(w, h, g, a);
    RenderChanges(w, h, g, a);
    var toml, unit := w.renderToml(g.toml), UnitMigration.Render(w.template, g.unit);
    assert toml.Some? && unit.Some?;
    var unsafe := g.(restartSafe := false);
    InstallTicks(w, unsafe, toml.value, unit.value);
    if Install(w, unsafe, Some(toml.value), Some(unit.value)).1 {
      ReconcileGoesThrough(w, g, a, toml.value, unit.value);
    } else {
      ReconcileFailsWithInstall(w, g, a, toml.value, unit.value);
    }
  }

  lemma StartCalls(w: World, g: Host, a: Action)
    requires a.kind.RuntimeStart? && g.live
    ensures Inspect(w, g, a) == Some(if g.active then Satisfied else NeedsApply)
    ensures Apply(w, g, a) == (StartService(w, g, false).0, if StartService(w, g, false).1 then Some(Receipt(true, Nothing)) else None)
  {
    hide StartService;
  }

  lemma StartActive(w: World, g: Host)
    ensures var (t, ok) := StartService(w, g, false);
            (ok ==> t.active) && t == g.(tick := t.tick, starts := t.starts, active := t.active)
  {
  }

  lemma StartGoesOn(w: World, h: Host, g: Host, a: Action, x: Host)
    requires a.kind.RuntimeStart? && Arrived(w, h, g) && GoesOn(w, g, a, x)
    ensures Arrived(w, h, x) && x.active
  {
    hide DriverOf, UnitMigration.Render, Inspect, Apply, StartService;
    DriverHandles(w, g, a);
    StartCalls(w, g, a);
    StartActive(w, g);
  }

  lemma CheckGoesOn(w: World, g: Host, a: Action, x: Host)
    requires Check(a) && GoesOn(w, g, a, x)
    ensures x == g.(rest := x.rest)
  {
    hide InspectStop, InspectReconcile, InspectRender, ApplyStop, ApplyReconcile, ApplyRender, ApplyRelease, StartService, Undone;
  }

  lemma LateGoesOn(w: World, h: Host, g: Host, a: Action, x: Host)
    requires Fits(a, 2) && Arrived(w, h, g) && GoesOn(w, g, a, x)
    ensures Arrived(w, h, x) && (g.active || a.kind.RuntimeStart? ==> x.active)
  {
    hide UnitMigration.Render, GoesOn;
    if a.kind.RuntimeStart? { StartGoesOn(w, h, g, a, x); } else { CheckGoesOn(w, g, a, x); }
  }

  lemma StepGoesOn(w: World, h: Host, g: Host, a: Action, n: nat, x: Host)
    requires Valid(w) && RendersRuntime(w) && RunningSmoke(w, h)
    requires Fits(a, n) && At(w, h, g, n) && GoesOn(w, g, a, x)
    ensures At(w, h, x, NextStage(a, n))
    ensures (n == 2 && g.active) || a.kind.RuntimeStart? ==> x.active
  {
    hide DriverOf, RunningSmoke, Valid, RendersRuntime, Arrived, SameWorker, Pushes, TornStop;
    if n == 2 {
      LateGoesOn(w, h, g, a, x);
    } else if n == 1 {
      ReconcileArrives(w, h, g, a, x);
    } else if Aside(a) {
      AsideAdvances(w, h, g, a);
    } else {
      StopAdvances(w, h, g, a);
    }
  }

  lemma HasFirst(actions: seq<Action>, k: Kind)
    requires actions != [] && Has(actions, k)
    ensures actions[0].kind == k || Has(actions[1..], k)
  {
    var i :| 0 <= i < |actions| && actions[i].kind == k;
    if i > 0 { assert actions[1..][i - 1] == actions[i]; }
  }

  lemma PassGoesOn(w: World, g: Host, actions: seq<Action>) returns (x: Host)
    requires actions != [] && Forward(DriverOf(w), g, actions).ok
    ensures GoesOn(w, g, actions[0], x)
    ensures Forward(DriverOf(w), x, actions[1..]).ok
    ensures Forward(DriverOf(w), g, actions).target == Forward(DriverOf(w), x, actions[1..]).target
  {
    hide DriverOf;
    var (seen, inspection) := DriverOf(w).inspect(g, actions[0]);
    x := if inspection == Some(Satisfied) then seen else DriverOf(w).apply(seen, actions[0]).0;
  }

  lemma {:induction false} ForwardArrives(w: World, h: Host, g: Host, actions: seq<Action>, n: nat)
    requires Valid(w) && RendersRuntime(w) && RunningSmoke(w, h)
    requires Migration(actions, n) && At(w, h, g, n) && Forward(DriverOf(w), g, actions).ok
    ensures var t := Forward(DriverOf(w), g, actions).target;
            && (n == 2 || Has(actions, ReconcileWorker) ==> Arrived(w, h, t))
            && ((n == 2 && g.active) || Has(actions, RuntimeStart) ==> t.active)
    decreases |actions|
  {
    hide Valid, RendersRuntime, RunningSmoke, GoesOn, Arrived, Stage, DriverOf;
    if actions != [] {
      hide Has;
      var x := PassGoesOn(w, g, actions);
      StepGoesOn(w, h, g, actions[0], n, x);
      ForwardArrives(w, h, x, actions[1..], NextStage(actions[0], n));
      if Has(actions, ReconcileWorker) { HasFirst(actions, ReconcileWorker); }
      if Has(actions, RuntimeStart) { HasFirst(actions, RuntimeStart); }
    }
  }

  /** Every planned migration of a running smoke Worker ends in one of two places.  Either
      both files are rendered, the rendered unit is loaded and the Worker runs; or the Worker
      is back as it was, with the one exception of a stop that failed after stopping. */
  lemma MigratesOrRestores(w: World, h: Host, intent: P.Intent, actions: seq<Action>)
    requires intent.reconcileWorker && P.WellMarked(actions) && P.KindsOf(actions) == P.PlannedKinds(intent)
    requires Valid(w) && RendersRuntime(w) && RunningSmoke(w, h) && AtMostOneFault(w)
    requires var pass := Forward(DriverOf(w), h, actions); pass.ok || Calm(w, pass.target.tick)
    ensures var report := Outcome(DriverOf(w), h, actions, true);
            if report.succeeded then Arrived(w, h, report.target) && report.target.active
            else SameWorker(h, report.target) <==> !StopTorn(w, h, actions)
  {
    hide DriverOf, P.WellMarked, P.PlannedKinds, Forward, Arrived, RunningSmoke, Migration, Has, StopTorn;
    PlannedMigration(intent, actions);
    if Forward(DriverOf(w), h, actions).ok {
      SmokeIsItself(w, h);
      PlannedSteps(intent, actions);
      ForwardArrives(w, h, h, actions, 0);
    } else {
      OneFailureRestores(w, h, actions);
    }
  }

  lemma PlannedSteps(intent: P.Intent, actions: seq<Action>)
    requires intent.reconcileWorker && P.KindsOf(actions) == P.PlannedKinds(intent)
    ensures Has(actions, ReconcileWorker) && Has(actions, RuntimeStart)
  {
    var stop := P.MigrationOrder(intent);
    hide P.PlannedKinds;
    assert P.KindsOf(actions)[stop + 1] == actions[stop + 1].kind && P.KindsOf(actions)[stop + 3] == actions[stop + 3].kind;
  }
}
