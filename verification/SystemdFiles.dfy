/** Rendered files through a whole failed plan: whatever fails, and wherever, the rollback
    gives the files back, unless the failing call is a write that had replaced its file. */
module SystemdFiles {
  import opened Contracts
  import opened SetupApply
  import opened Systemd
  import opened SystemdRestore
  import opened SystemdMigration
  import UnitMigration
  import P = Planner

  // ------------------------------------------------------- restoring without failures

  /** The same world without its faults. */
  function Quieted(w: World): World {
    w.(faults := (k: nat) => Fine)
  }

  lemma PutQuiet(w: World, h: Host, path: string, content: Option<string>)
    requires PutFile(w, h, path, content).1
    ensures PutFile(Quieted(w), h, path, content) == PutFile(w, h, path, content)
  {
  }

  lemma {:induction false} WriteQuiet(w: World, h: Host, items: seq<Written>)
    requires WriteAll(w, h, items).2
    ensures WriteAll(Quieted(w), h, items) == WriteAll(w, h, items)
    decreases |items|
  {
    hide PutFile, Quieted;
    if items != [] {
      var x := items[0];
      if x.previous == Some(x.installed) {
        WriteQuiet(w, h, items[1..]);
      } else {
        PutQuiet(w, h, x.path, Some(x.installed));
        WriteQuiet(w, PutFile(w, h, x.path, Some(x.installed)).0, items[1..]);
      }
    }
  }

  lemma PutCalm(w: World, x: Host, y: Host, path: string, content: Option<string>)
    requires Calm(w, x.tick) && x.files == y.files
    ensures var (s, ok) := PutFile(w, x, path, content); var (t, done) := PutFile(Quieted(w), y, path, content);
            ok && done && s.files == t.files && s.tick == x.tick + 1
  {
  }

  /** A restoration without failures depends on the files alone. */
  lemma {:induction false} RestoreQuiet(w: World, x: Host, y: Host, items: seq<Written>)
    requires Calm(w, x.tick) && x.files == y.files
    ensures var (s, ok) := RestoreAll(w, x, items); var (t, done) := RestoreAll(Quieted(w), y, items);
            ok == done && s.files == t.files
    decreases |items|
  {
    hide Calm, Quieted, PutFile;
    if items != [] {
      var item := items[|items| - 1];
      PutCalm(w, x, y, item.path, item.previous);
      var s := PutFile(w, x, item.path, item.previous).0;
      CalmLater(w, x.tick, s.tick);
      RestoreQuiet(w, s, PutFile(Quieted(w), y, item.path, item.previous).0, items[..|items| - 1]);
    }
  }

  /** Restoring `items` leads from the files `from` back to the files `to`. */
  predicate Reverts(w: World, h: Host, items: seq<Written>, from: map<string, string>, to: map<string, string>) {
    var (t, ok) := RestoreAll(Quieted(w), h.(files := from), items);
    ok && t.files == to
  }

  predicate DistinctTargets(w: World, a: Action) {
    w.targets(a).Some? ==>
      var ts := w.targets(a).value; forall i, j :: 0 <= i < j < |ts| ==> ts[i].0 != ts[j].0
  }

  lemma QuietIsCalm(w: World, from: nat)
    ensures Calm(Quieted(w), from)
  {
  }

  /** What a completed rendering recorded leads back to the files before it. */
  lemma RenderReverts(w: World, h: Host, g: Host, a: Action)
    requires DistinctTargets(w, a) && ApplyRender(w, g, a).1.Some?
    ensures var (t, r) := ApplyRender(w, g, a);
            && r.value.undo.Files? && Reverts(w, h, r.value.undo.items, t.files, g.files)
            && (!r.value.changed ==> t.files == g.files)
  {
    hide WriteAll, RestoreAll, RenderBlocked, Calm, Quieted;
    var q, items := Quieted(w), Planned(g, w.targets(a).value);
    var (t, written, ok) := WriteAll(w, g, items);
    WriteQuiet(w, g, items);
    PlannedSnapshot(g, w.targets(a).value);
    QuietIsCalm(w, t.tick);
    var torn := RestoreUndoesWrites(q, g, items);
    RestoreTwice(w, t, h.(files := t.files), written);
    if written == [] { RestoreNothing(q, t); }
  }

  lemma RestoreTwice(w: World, x: Host, y: Host, items: seq<Written>)
    requires x.files == y.files
    ensures var (s, ok) := RestoreAll(Quieted(w), x, items); var (t, done) := RestoreAll(Quieted(w), y, items);
            ok == done && s.files == t.files
  {
    hide RestoreAll;
    QuietIsCalm(w, x.tick);
    assert Quieted(Quieted(w)) == Quieted(w);
    RestoreQuiet(Quieted(w), x, y, items);
  }

  lemma {:induction false} WriteFails(w: World, h: Host, items: seq<Written>)
    requires !WriteAll(w, h, items).2
    ensures var t := WriteAll(w, h, items).0; t.tick > h.tick && !w.faults(t.tick - 1).Fine?
    decreases |items|
  {
    if items != [] {
      var x := items[0];
      if x.previous == Some(x.installed) {
        WriteFails(w, h, items[1..]);
      } else if PutFile(w, h, x.path, Some(x.installed)).1 {
        WriteFails(w, PutFile(w, h, x.path, Some(x.installed)).0, items[1..]);
      }
    }
  }

  // ------------------------------------------------------------------------ one step

  /** The rendering raises from a write that had already replaced its file. */
  predicate TornWrite(w: World, g: Host, a: Action) {
    a.kind.RenderConfig? && w.targets(a).Some? &&
    var last := WriteAll(w, g, Planned(g, w.targets(a).value)).0.tick;
    last > 0 && w.faults(last - 1).After?
  }

  lemma RenderRaises(w: World, g: Host, a: Action)
    requires AtMostOneFault(w) && DistinctTargets(w, a) && a.kind.RenderConfig?
    requires !RenderBlocked(w, g, a) && w.targets(a).Some? && ApplyRender(w, g, a).1.None?
    ensures ApplyRender(w, g, a).0.files == g.files <==> !TornWrite(w, g, a)
  {
    hide WriteAll, RestoreAll, RenderBlocked, Calm, AtMostOneFault;
    var items := Planned(g, w.targets(a).value);
    WriteFails(w, g, items);
    OneFaultThenCalm(w, WriteAll(w, g, items).0.tick - 1);
    RenderRaisesClean(w, g, a);
  }

  lemma ReconcileKeepsFiles(w: World, h: Host, a: Action)
    ensures ApplyReconcile(w, h, a).0.files == h.files
  {
    hide UnitMigration.Parse, UnitMigration.Render, Install, InspectReconcile;
    var toml, unit := w.renderToml(h.toml), UnitMigration.Render(w.template, h.unit);
    if toml.Some? && unit.Some? {
      var newToml, newUnit := Changed(h.toml, toml.value), Changed(h.unit, unit.value);
      var oldToml := if newToml.Some? then Some(h.toml) else None;
      var oldUnit := if newUnit.Some? then Some(h.unit) else None;
      var unsafe := if h.live && (newToml.Some? || newUnit.Some?) then h.(restartSafe := false) else h;
      InstallLoads(w, unsafe, newToml, newUnit);
      InstallLoads(w, Install(w, unsafe, newToml, newUnit).0, oldToml, oldUnit);
    }
  }

  lemma ApplyKeepsFiles(w: World, g: Host, a: Action)
    requires !a.kind.RenderConfig?
    ensures Apply(w, g, a).0.files == g.files
  {
    hide InspectStop, InspectReconcile, InspectRender, ApplyReconcile, ApplyRender;
    if a.kind.ReconcileWorker? { ReconcileKeepsFiles(w, g, a); }
  }

  lemma DriverCalls(w: World, g: Host, a: Action)
    ensures var (seen, inspection) := DriverOf(w).inspect(g, a);
            && seen == g.(rest := seen.rest) && inspection == Inspect(w, g, a) && (HandledHere(a.kind) ==> seen == g)
            && DriverOf(w).apply(seen, a) == Apply(w, seen, a)
  {
    hide Inspect, Apply;
  }

  /** What inspecting and applying one action does to the files. */
  predicate FilesStep(w: World, h: Host, g: Host, a: Action) {
    var (seen, inspection) := DriverOf(w).inspect(g, a);
    var (next, receipt) := DriverOf(w).apply(seen, a);
    && seen.files == g.files
    && (!a.kind.RenderConfig? ==> next.files == g.files)
    && (a.kind.RenderConfig? && inspection == Some(NeedsApply) ==>
          if receipt.None? then next.files == g.files <==> !TornWrite(w, g, a)
          else receipt.value.undo.Files? && Reverts(w, h, receipt.value.undo.items, next.files, g.files)
               && (!receipt.value.changed ==> next.files == g.files))
  }

  lemma StepFiles(w: World, h: Host, g: Host, a: Action)
    requires AtMostOneFault(w) && DistinctTargets(w, a)
    ensures FilesStep(w, h, g, a)
  {
    hide DriverOf, Inspect, Apply, AtMostOneFault, DistinctTargets, TornWrite, Reverts;
    DriverCalls(w, g, a);
    if a.kind.RenderConfig? { RenderStep(w, h, g, a); } else { ApplyKeepsFiles(w, DriverOf(w).inspect(g, a).0, a); }
  }

  lemma RenderStep(w: World, h: Host, g: Host, a: Action)
    requires AtMostOneFault(w) && DistinctTargets(w, a) && a.kind.RenderConfig?
    ensures var (next, receipt) := Apply(w, g, a);
            Inspect(w, g, a) == Some(NeedsApply) ==>
              if receipt.None? then next.files == g.files <==> !TornWrite(w, g, a)
              else receipt.value.undo.Files? && Reverts(w, h, receipt.value.undo.items, next.files, g.files)
                   && (!receipt.value.changed ==> next.files == g.files)
  {
    hide AtMostOneFault, DistinctTargets, TornWrite, Reverts, ApplyRender, RenderBlocked;
    hide InspectStop, InspectReconcile, ApplyStop, ApplyReconcile, ApplyRelease, StartService;
    if Inspect(w, g, a) == Some(NeedsApply) {
      if Apply(w, g, a).1.None? { RenderRaises(w, g, a); } else { RenderReverts(w, h, g, a); }
    }
  }

  lemma UndoneKeepsFiles(w: World, x: Host, a: Action, r: Receipt<Undo>)
    ensures var t := Undone(w, x, a, r).0; t.tick >= x.tick && (!a.kind.RenderConfig? ==> t.files == x.files)
  {
    hide RestoreAll, RollbackReconcile, RollbackStop;
    if a.kind.RenderConfig? { RestoreTicks(w, x, if r.undo.Files? then r.undo.items else []); }
    if a.kind.ReconcileWorker? && r.undo.Previous? { RollbackReconcileKeepsFiles(w, x, r.undo.toml, r.undo.unit); }
    if a.kind.WorkerStop? { RollbackStopKeepsFiles(w, x); }
  }

  lemma RollbackReconcileKeepsFiles(w: World, x: Host, toml: string, unit: string)
    ensures var t := RollbackReconcile(w, x, toml, unit).0; t.tick >= x.tick && t.files == x.files
  {
    var quiet := if x.live && x.active then StopService(w, x.(restartSafe := false)).0
                 else if x.live then x.(restartSafe := false) else x;
    InstallLoads(w, quiet, Some(toml), Some(unit));
    InstallOnward(w, quiet, toml, unit);
    hide Install;
  }

  lemma InstallOnward(w: World, h: Host, toml: string, unit: string)
    ensures Install(w, h, Some(toml), Some(unit)).0.tick >= h.tick
  {
  }

  lemma RollbackStopKeepsFiles(w: World, x: Host)
    ensures var t := RollbackStop(w, x).0; t.tick >= x.tick && t.files == x.files
  {
    hide Contract;
  }

  // ----------------------------------------------------------------- the whole plan

  function One(k: Kind): nat {
    if k.RenderConfig? then 1 else 0
  }

  function Renders(actions: seq<Action>): nat {
    if actions == [] then 0 else One(actions[0].kind) + Renders(actions[1..])
  }

  function Rendered(done: seq<Done<Undo>>): nat {
    if done == [] then 0 else Rendered(done[..|done| - 1]) + One(done[|done| - 1].action.kind)
  }

  /** The files are what undoing `done` leads back from to the files of `h`. */
  ghost predicate FileStack(w: World, h: Host, done: seq<Done<Undo>>, files: map<string, string>)
    decreases |done|
  {
    if done == [] then files == h.files
    else
      var front, last := done[..|done| - 1], done[|done| - 1];
      if last.action.kind.RenderConfig? then
        && Undoable(last) && last.receipt.undo.Files?
        && exists f :: FileStack(w, h, front, f) && Reverts(w, h, last.receipt.undo.items, files, f)
      else FileStack(w, h, front, files)
  }

  lemma PushFiles(w: World, h: Host, done: seq<Done<Undo>>, item: Done<Undo>, before: map<string, string>, files: map<string, string>)
    requires FileStack(w, h, done, before)
    requires if item.action.kind.RenderConfig? then
               Undoable(item) && item.receipt.undo.Files? && Reverts(w, h, item.receipt.undo.items, files, before)
             else files == before
    ensures FileStack(w, h, done + [item], files) && Rendered(done + [item]) == Rendered(done) + One(item.action.kind)
  {
    hide Reverts;
    assert (done + [item])[..|done|] == done;
  }

  lemma {:induction false} NothingRenderedYet(w: World, h: Host, done: seq<Done<Undo>>, files: map<string, string>)
    requires FileStack(w, h, done, files) && Rendered(done) == 0
    ensures files == h.files
    decreases |done|
  {
    hide Reverts;
    if done != [] { NothingRenderedYet(w, h, done[..|done| - 1], files); }
  }

  /** The pass reaches a rendering that raises from a write that had replaced its file. */
  predicate RenderTorn(w: World, g: Host, actions: seq<Action>)
    decreases |actions|
  {
    actions != [] &&
    var a := actions[0];
    var (seen, inspection) := DriverOf(w).inspect(g, a);
    var (next, receipt) := DriverOf(w).apply(seen, a);
    if inspection == Some(Satisfied) then RenderTorn(w, seen, actions[1..])
    else inspection == Some(NeedsApply) && (if receipt.None? then TornWrite(w, g, a) else RenderTorn(w, next, actions[1..]))
  }

  ghost predicate FilesReached(w: World, h: Host, g: Host, actions: seq<Action>, done: seq<Done<Undo>>) {
    var pass := Forward(DriverOf(w), g, actions);
    if RenderTorn(w, g, actions) then Rendered(done + pass.done) == 0 && pass.target.files != h.files
    else FileStack(w, h, done + pass.done, pass.target.files)
  }

  lemma FilesOnward(w: World, h: Host, g: Host, actions: seq<Action>, next: Host, done: seq<Done<Undo>>,
                    first: seq<Done<Undo>>, result: Result)
    requires actions != [] && FilesReached(w, h, next, actions[1..], done + first)
    requires Forward(DriverOf(w), g, actions) == Onward(first, result, Forward(DriverOf(w), next, actions[1..]))
    requires RenderTorn(w, g, actions) == RenderTorn(w, next, actions[1..])
    ensures FilesReached(w, h, g, actions, done)
  {
    hide DriverOf, Forward, RenderTorn, FileStack, Rendered;
    Regroup(done, first, Forward(DriverOf(w), next, actions[1..]).done);
  }

  /** Renderings can be undone and name every file once. */
  ghost predicate Renderable(w: World, actions: seq<Action>) {
    forall a :: a in actions ==> DistinctTargets(w, a) && (a.kind.RenderConfig? ==> a.reversible)
  }

  lemma FilesStop(w: World, h: Host, g: Host, actions: seq<Action>, done: seq<Done<Undo>>)
    requires actions != [] && FilesStep(w, h, g, actions[0])
    requires Rendered(done) + Renders(actions) <= 1 && FileStack(w, h, done, g.files)
    requires var (seen, inspection) := DriverOf(w).inspect(g, actions[0]);
             inspection != Some(Satisfied)
             && (inspection == Some(NeedsApply) ==> DriverOf(w).apply(seen, actions[0]).1.None?)
    ensures FilesReached(w, h, g, actions, done)
  {
    hide DriverOf, Reverts;
    assert done + [] == done;
    if RenderTorn(w, g, actions) { NothingRenderedYet(w, h, done, g.files); }
  }

  lemma {:induction false} FilesProgress(w: World, h: Host, g: Host, actions: seq<Action>, done: seq<Done<Undo>>)
    requires AtMostOneFault(w) && Renderable(w, actions)
    requires Rendered(done) + Renders(actions) <= 1 && FileStack(w, h, done, g.files)
    requires !Forward(DriverOf(w), g, actions).ok
    ensures FilesReached(w, h, g, actions, done)
    decreases |actions|
  {
    hide AtMostOneFault, DriverOf, FileStack, Rendered, Reverts, TornWrite, FilesReached;
    var a, d := actions[0], DriverOf(w);
    var (seen, inspection) := d.inspect(g, a);
    var (next, receipt) := d.apply(seen, a);
    StepFiles(w, h, g, a);
    assert Renderable(w, actions[1..]);
    if inspection == Some(Satisfied) {
      assert done + [] == done;
      FilesProgress(w, h, seen, actions[1..], done);
      FilesOnward(w, h, g, actions, seen, done, [], Result(a.id, Skipped, false));
    } else if inspection == Some(NeedsApply) && receipt.Some? {
      var r := receipt.value;
      if r.changed {
        PushFiles(w, h, done, Done(a, r), g.files, next.files);
        FilesProgress(w, h, next, actions[1..], done + [Done(a, r)]);
        FilesOnward(w, h, g, actions, next, done, [Done(a, r)], Result(a.id, Applied, true));
      } else {
        assert done + [] == done;
        FilesProgress(w, h, next, actions[1..], done);
        FilesOnward(w, h, g, actions, next, done, [], Result(a.id, Skipped, false));
      }
    } else {
      FilesStop(w, h, g, actions, done);
    }
  }

  lemma UndoneReverts(w: World, h: Host, x: Host, item: Done<Undo>, files: map<string, string>)
    requires Calm(w, x.tick) && item.action.kind.RenderConfig? && item.receipt.changed && item.receipt.undo.Files?
    requires Reverts(w, h, item.receipt.undo.items, x.files, files)
    ensures Undone(w, x, item.action, item.receipt).0.files == files
  {
    hide RestoreAll, RollbackReconcile, RollbackStop;
    RestoreQuiet(w, x, h.(files := x.files), item.receipt.undo.items);
  }

  lemma {:induction false} RewindFiles(w: World, h: Host, x: Host, done: seq<Done<Undo>>)
    requires FileStack(w, h, done, x.files) && Calm(w, x.tick)
    ensures Unwound(DriverOf(w), x, Undos(done)).files == h.files
    decreases |done|
  {
    hide Calm, DriverOf, Undone, Reverts;
    if done == [] {
      assert Undos(done) == [];
    } else {
      var front, last := done[..|done| - 1], done[|done| - 1];
      assert done == front + [last];
      UnwoundLast(w, x, front, last);
      UndoneKeepsFiles(w, x, last.action, last.receipt);
      var y := if Undoable(last) then Undone(w, x, last.action, last.receipt).0 else x;
      CalmLater(w, x.tick, y.tick);
      if last.action.kind.RenderConfig? {
        var f :| FileStack(w, h, front, f) && Reverts(w, h, last.receipt.undo.items, x.files, f);
        UndoneReverts(w, h, x, last, f);
      }
      hide FileStack, Unwound, Undos;
      RewindFiles(w, h, y, front);
    }
  }

  lemma {:induction false} RewindUnrendered(w: World, x: Host, done: seq<Done<Undo>>)
    requires Rendered(done) == 0
    ensures Unwound(DriverOf(w), x, Undos(done)).files == x.files
    decreases |done|
  {
    hide DriverOf, Undone;
    if done == [] {
      assert Undos(done) == [];
    } else {
      var front, last := done[..|done| - 1], done[|done| - 1];
      assert done == front + [last];
      UnwoundLast(w, x, front, last);
      UndoneKeepsFiles(w, x, last.action, last.receipt);
      hide Unwound, Undos;
      RewindUnrendered(w, if Undoable(last) then Undone(w, x, last.action, last.receipt).0 else x, front);
    }
  }

  /** A plan that fails, however it does: as long as the rollback itself meets no failure,
      every rendered file is what it was, unless the failing call is a write that had
      already replaced its file. */
  lemma FailureRestoresFiles(w: World, h: Host, actions: seq<Action>)
    requires AtMostOneFault(w) && Renderable(w, actions) && Renders(actions) <= 1
    requires !Forward(DriverOf(w), h, actions).ok && Calm(w, Forward(DriverOf(w), h, actions).target.tick)
    ensures Outcome(DriverOf(w), h, actions, true).target.files == h.files <==> !RenderTorn(w, h, actions)
  {
    hide DriverOf, RenderTorn, AtMostOneFault, Renderable;
    var pass := Forward(DriverOf(w), h, actions);
    FilesProgress(w, h, h, actions, []);
    assert [] + pass.done == pass.done;
    if RenderTorn(w, h, actions) {
      RewindUnrendered(w, pass.target, pass.done);
    } else {
      RewindFiles(w, h, pass.target, pass.done);
    }
  }

  // ------------------------------------------------------------------- planned plans

  lemma {:induction false} NoRenders(actions: seq<Action>)
    requires forall i :: 0 <= i < |actions| ==> !actions[i].kind.RenderConfig?
    ensures Renders(actions) == 0
  {
    if actions != [] { NoRenders(actions[1..]); }
  }

  lemma {:induction false} OneRender(actions: seq<Action>, k: nat)
    requires forall i :: 0 <= i < |actions| && i != k ==> !actions[i].kind.RenderConfig?
    ensures Renders(actions) <= 1
    decreases |actions|
  {
    if actions != [] {
      if k == 0 { NoRenders(actions[1..]); } else { OneRender(actions[1..], k - 1); }
    }
  }

  function RenderPlace(intent: P.Intent): nat {
    3 + |intent.packages| + (if intent.systemd && intent.gpuCount > 0 then 1 else 0)
  }

  lemma OnePlannedRender(intent: P.Intent, i: nat)
    requires i < |P.PlannedKinds(intent)| && i != RenderPlace(intent)
    ensures !P.PlannedKinds(intent)[i].RenderConfig?
  {
  }

  /** Every plan the planner builds renders once at most and can undo it. */
  lemma PlannedRenderable(w: World, intent: P.Intent, actions: seq<Action>)
    requires P.WellMarked(actions) && P.KindsOf(actions) == P.PlannedKinds(intent)
    requires forall a :: a in actions ==> DistinctTargets(w, a)
    ensures Renderable(w, actions) && Renders(actions) <= 1
  {
    hide P.Id, P.PlannedKinds;
    assert |actions| == |P.KindsOf(actions)|;
    forall i | 0 <= i < |actions| && i != RenderPlace(intent) ensures !actions[i].kind.RenderConfig? {
      OnePlannedRender(intent, i);
      assert P.KindsOf(actions)[i] == actions[i].kind;
    }
    OneRender(actions, RenderPlace(intent));
  }
}
