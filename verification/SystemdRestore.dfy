/** What a failed migration gives back: the rendered files, the execution files, the
    loaded unit and the running service. */
module SystemdRestore {
  import opened Contracts
  import opened SetupApply
  import opened Systemd
  import UnitMigration

  // ----------------------------------------------------------------- rendered files

  ghost predicate Calm(w: World, from: nat) {
    forall k: nat :: k >= from ==> w.faults(k).Fine?
  }

  predicate DistinctPaths(items: seq<Written>) {
    forall i, j :: 0 <= i < j < |items| ==> items[i].path != items[j].path
  }

  /** The snapshot taken before the first write is still what the files hold. */
  predicate Snapshot(h: Host, items: seq<Written>) {
    forall i :: 0 <= i < |items| ==> items[i].previous == Content(h, items[i].path)
  }

  lemma PutBack(h: Host, path: string, content: string)
    ensures path in h.files ==> h.files[path := content][path := h.files[path]] == h.files
    ensures path !in h.files ==> h.files[path := content] - {path} == h.files
  {
    if path !in h.files {
      assert forall k :: k in h.files[path := content] - {path} <==> k in h.files;
    }
  }

  lemma RestoreOne(w: World, h: Host, item: Written)
    requires Calm(w, h.tick) && Content(h, item.path) == Some(item.installed)
    ensures RestoreAll(w, h, [item]) == (PutFile(w, h, item.path, item.previous).0, true)
  {
    assert [item][..0] == [];
  }

  lemma {:induction false} RestoreConcat(w: World, h: Host, a: seq<Written>, b: seq<Written>)
    requires RestoreAll(w, h, b).1
    ensures RestoreAll(w, h, a + b) == RestoreAll(w, RestoreAll(w, h, b).0, a)
    decreases |b|
  {
    if b == [] {
      assert a + b == a;
    } else {
      var item, all := b[|b| - 1], a + b;
      assert all[|all| - 1] == item && all[..|all| - 1] == a + b[..|b| - 1];
      RestoreConcat(w, PutFile(w, h, item.path, item.previous).0, a, b[..|b| - 1]);
    }
  }

  lemma SnapshotNext(w: World, h: Host, items: seq<Written>)
    requires items != [] && Snapshot(h, items) && DistinctPaths(items)
    ensures Snapshot(h, items[1..]) && DistinctPaths(items[1..])
    ensures Snapshot(PutFile(w, h, items[0].path, Some(items[0].installed)).0, items[1..])
  {
    var next := PutFile(w, h, items[0].path, Some(items[0].installed)).0;
    forall i | 0 <= i < |items| - 1 ensures items[1..][i].previous == Content(next, items[1..][i].path) {
      assert items[1..][i] == items[i + 1];
    }
  }

  lemma {:induction false} RestoreTicks(w: World, h: Host, items: seq<Written>)
    ensures RestoreAll(w, h, items).0.tick >= h.tick
    decreases |items|
  {
    if items != [] {
      var item := items[|items| - 1];
      RestoreTicks(w, PutFile(w, h, item.path, item.previous).0, items[..|items| - 1]);
    }
  }

  /** Undoing one write when at most one other file differs from what it was. */
  lemma UndoFirst(w: World, h: Host, m: Host, x: Written, y: Option<Written>)
    requires Calm(w, m.tick) && x.previous == Content(h, x.path)
    requires y.Some? ==> y.value.path != x.path
    requires m.files == (if y.None? then h.files[x.path := x.installed]
                         else h.files[x.path := x.installed][y.value.path := y.value.installed])
    ensures var t := RestoreAll(w, m, [x]);
            t.1 && t.0.files == if y.None? then h.files else h.files[y.value.path := y.value.installed]
  {
    RestoreOne(w, m, x);
    PutBack(h, x.path, x.installed);
    if y.Some? {
      var left := h.files[y.value.path := y.value.installed];
      assert m.files == left[x.path := x.installed];
      PutBack(h.(files := left), x.path, x.installed);
    }
  }

  lemma WriteAllUnfolds(w: World, h: Host, items: seq<Written>)
    requires items != []
    ensures var x := items[0];
            var (next, ok) := PutFile(w, h, x.path, Some(x.installed));
            var (t, written, all) := WriteAll(w, next, items[1..]);
            WriteAll(w, h, items) ==
              if x.previous == Some(x.installed) then WriteAll(w, h, items[1..])
              else if !ok then (next, [], false)
              else (t, [x] + written, all)
  {
  }

  lemma PutDone(w: World, h: Host, x: Written)
    ensures var (next, ok) := PutFile(w, h, x.path, Some(x.installed));
            && next.tick == h.tick + 1
            && (ok <==> w.faults(h.tick).Fine?)
            && next.files == (if w.faults(h.tick).Before? then h.files else h.files[x.path := x.installed])
  {
  }

  lemma RestoreNothing(w: World, h: Host)
    ensures RestoreAll(w, h, []) == (h, true)
  {
  }

  lemma CalmLater(w: World, from: nat, to: nat)
    requires Calm(w, from) && from <= to
    ensures Calm(w, to)
  {
  }

  /** Undoing the completed writes gives every file back, but for the one (`torn`) whose
      failing write had already replaced it. */
  predicate RestoresBut(w: World, h: Host, items: seq<Written>, torn: Option<Written>) {
    var (t, written, ok) := WriteAll(w, h, items);
    var (back, done) := RestoreAll(w, t, written);
    && done && h.tick <= t.tick && (!ok ==> h.tick < t.tick && (torn.Some? <==> w.faults(t.tick - 1).After?))
    && (ok ==> torn.None?)
    && back.files == (if torn.None? then h.files else h.files[torn.value.path := torn.value.installed])
    && (torn.Some? ==> torn.value in items && torn.value.previous != Some(torn.value.installed))
  }

  lemma AfterWrite(w: World, h: Host, items: seq<Written>, next: Host, torn: Option<Written>)
    requires items != [] && Snapshot(h, items) && DistinctPaths(items)
    requires items[0].previous != Some(items[0].installed)
    requires PutFile(w, h, items[0].path, Some(items[0].installed)) == (next, true)
    requires RestoresBut(w, next, items[1..], torn) && Calm(w, WriteAll(w, next, items[1..]).0.tick)
    ensures RestoresBut(w, h, items, torn)
  {
    hide RestoreAll, WriteAll, PutFile, Calm;
    var x := items[0];
    WriteAllUnfolds(w, h, items);
    PutDone(w, h, x);
    var (t, written, ok) := WriteAll(w, next, items[1..]);
    var back := RestoreAll(w, t, written).0;
    RestoreConcat(w, t, [x], written);
    RestoreTicks(w, t, written);
    CalmLater(w, t.tick, back.tick);
    if torn.Some? {
      var k :| 0 <= k < |items| - 1 && items[1..][k] == torn.value;
      assert items[k + 1] == torn.value;
    }
    UndoFirst(w, h, back, x, torn);
  }

  lemma AfterFailedWrite(w: World, h: Host, items: seq<Written>, next: Host) returns (torn: Option<Written>)
    requires items != [] && items[0].previous != Some(items[0].installed)
    requires PutFile(w, h, items[0].path, Some(items[0].installed)) == (next, false)
    ensures RestoresBut(w, h, items, torn)
  {
    hide RestoreAll, WriteAll, PutFile;
    WriteAllUnfolds(w, h, items);
    PutDone(w, h, items[0]);
    RestoreNothing(w, next);
    torn := if w.faults(h.tick).After? then Some(items[0]) else None;
  }

  lemma {:induction false} RestoreUndoesWrites(w: World, h: Host, items: seq<Written>)
    returns (torn: Option<Written>)
    requires Snapshot(h, items) && DistinctPaths(items)
    requires Calm(w, WriteAll(w, h, items).0.tick)
    ensures RestoresBut(w, h, items, torn)
    decreases |items|
  {
    hide RestoreAll, WriteAll, PutFile, Snapshot, DistinctPaths, Calm;
    if items == [] {
      torn := None;
      NothingToRestore(w, h);
    } else {
      var x := items[0];
      SnapshotNext(w, h, items);
      WriteAllUnfolds(w, h, items);
      if x.previous == Some(x.installed) {
        torn := RestoreUndoesWrites(w, h, items[1..]);
      } else {
        var (next, ok) := PutFile(w, h, x.path, Some(x.installed));
        if ok {
          torn := RestoreUndoesWrites(w, next, items[1..]);
          AfterWrite(w, h, items, next, torn);
        } else {
          torn := AfterFailedWrite(w, h, items, next);
        }
      }
    }
  }

  lemma NothingToRestore(w: World, h: Host)
    ensures RestoresBut(w, h, [], None)
  {
  }

  lemma PlannedSnapshot(h: Host, targets: seq<(string, string)>)
    requires forall i, j :: 0 <= i < j < |targets| ==> targets[i].0 != targets[j].0
    ensures Snapshot(h, Planned(h, targets)) && DistinctPaths(Planned(h, targets))
  {
  }

  /** A rendering that raises leaves the files as they were exactly when its failing write
      had not replaced its file yet, provided the restoration itself does not fail. */
  lemma RenderRaisesClean(w: World, h: Host, a: Action)
    requires w.targets(a).Some? && !RenderBlocked(w, h, a) && ApplyRender(w, h, a).1.None?
    requires var ts := w.targets(a).value; forall i, j :: 0 <= i < j < |ts| ==> ts[i].0 != ts[j].0
    requires Calm(w, WriteAll(w, h, Planned(h, w.targets(a).value)).0.tick)
    ensures var last := WriteAll(w, h, Planned(h, w.targets(a).value)).0.tick;
            last > 0 && (ApplyRender(w, h, a).0.files == h.files <==> !w.faults(last - 1).After?)
  {
    hide WriteAll, RestoreAll;
    var items := Planned(h, w.targets(a).value);
    PlannedSnapshot(h, w.targets(a).value);
    var torn := RestoreUndoesWrites(w, h, items);
    if torn.Some? {
      assert torn.value.previous == Content(h, torn.value.path);
    }
  }

  /** A rendering that succeeded is undone by its rollback. */
  lemma RenderRollsBack(w: World, h: Host, a: Action)
    requires w.targets(a).Some? && a.kind.RenderConfig? && ApplyRender(w, h, a).1.Some?
    requires var ts := w.targets(a).value; forall i, j :: 0 <= i < j < |ts| ==> ts[i].0 != ts[j].0
    requires Calm(w, ApplyRender(w, h, a).0.tick)
    ensures var (t, r) := ApplyRender(w, h, a); Undone(w, t, a, r.value).0.files == h.files
  {
    hide WriteAll, RestoreAll;
    var items := Planned(h, w.targets(a).value);
    PlannedSnapshot(h, w.targets(a).value);
    var torn := RestoreUndoesWrites(w, h, items);
    if WriteAll(w, h, items).1 == [] { RestoreNothing(w, WriteAll(w, h, items).0); }
  }

  // ---------------------------------------------------------------- execution files

  /** A live smoke Worker whose loaded unit is the one on disk. */
  predicate RunningSmoke(w: World, h: Host) {
    h.live && h.active && h.restartSafe && h.loaded == h.unit && Contract(w, h) == Some(false)
  }

  /** Every rendered config is a runtime config, as the source checks before writing it. */
  ghost predicate RendersRuntime(w: World) {
    forall t: string :: w.renderToml(t).Some? ==> w.tomlMode(w.renderToml(t).value) == Some(true)
  }

  predicate SameWorker(h: Host, t: Host) {
    t.toml == h.toml && t.unit == h.unit && t.loaded == h.loaded && t.restartSafe && t.active == h.active && t.live == h.live
  }

  lemma InstallCalm(w: World, h: Host, toml: string, unit: string)
    requires Calm(w, h.tick) && h.live
    ensures Install(w, h, Some(toml), Some(unit))
            == (h.(toml := toml, unit := unit, loaded := unit, tick := h.tick + 3), true)
  {
  }

  /** Rolling back a reconciliation without further failures: files, loaded unit and flag
      are what they were, and the service is stopped. */
  lemma ReconcileRollsBack(w: World, h: Host, m: Host, a: Action, r: Receipt<Undo>)
    requires h.live && m.live && h.loaded == h.unit && Calm(w, m.tick)
    requires a.kind.ReconcileWorker? && r == Receipt(true, Previous(h.toml, h.unit))
    ensures var (t, ok) := Undone(w, m, a, r);
            && ok == Some(true) && t.tick >= m.tick
            && SameWorker(h.(active := false), t)
  {
    var quiet := if m.active then StopService(w, m.(restartSafe := false)).0 else m.(restartSafe := false);
    CalmLater(w, m.tick, quiet.tick);
    InstallCalm(w, quiet, h.toml, h.unit);
    hide Install;
  }

  /** A reconciliation that raises, without failures after the first, restores what it had
      changed and keeps the service stopped. */
  lemma ReconcileRaisesClean(w: World, h: Host, a: Action, toml: string, unit: string)
    requires h.live && !h.active && h.loaded == h.unit && h.restartSafe
    requires InspectReconcile(w, h, a).NeedsApply?
    requires w.renderToml(h.toml) == Some(toml) && UnitMigration.Render(w.template, h.unit) == Some(unit)
    requires toml != h.toml && unit != h.unit
    requires ApplyReconcile(w, h, a).1.None?
    requires Calm(w, Install(w, h.(restartSafe := false), Some(toml), Some(unit)).0.tick)
    ensures SameWorker(h, ApplyReconcile(w, h, a).0)
  {
    hide UnitMigration.Render, UnitMigration.Parse, Contract;
    var unsafe := h.(restartSafe := false);
    var failed := Install(w, unsafe, Some(toml), Some(unit)).0;
    InstallLoads(w, unsafe, Some(toml), Some(unit));
    InstallCalm(w, failed, h.toml, h.unit);
    hide Install;
  }

  /** The restart after a clean rollback brings the smoke Worker back. */
  lemma StopRollsBack(w: World, h: Host, m: Host, a: Action)
    requires RunningSmoke(w, h) && SameWorker(h.(active := false), m) && Calm(w, m.tick)
    requires a.kind.WorkerStop?
    ensures var t := Undone(w, m, a, Receipt(true, WasActive)).0; SameWorker(h, t) && t.tick >= m.tick
  {
    hide UnitMigration.Parse;
  }
}
