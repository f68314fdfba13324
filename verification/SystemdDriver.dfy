/** The driver object: its methods change the host step by step, with the failure paths
    written out, and are proved to do what the driver functions of the saga say. */
module SystemdDriver {
  import opened Contracts
  import opened SetupApply
  import opened Systemd
  import UnitMigration

  class SystemdSetupDriver {
    const world: World
    const live: bool
    var toml: string
    var unit: string
    var loaded: string
    var active: bool
    var restartSafe: bool
    var files: map<string, string>
    var rest: Opaque
    var tick: nat
    var starts: seq<Start>

    function Now(): Host
      reads this
    {
      Host(live, toml, unit, loaded, active, restartSafe, files, rest, tick, starts)
    }

    /** A driver on a host whose loaded unit is the one on disk restarts nothing unproven. */
    constructor (world: World, live: bool, toml: string, unit: string, active: bool, files: map<string, string>)
      ensures this.world == world
      ensures Now() == Host(live, toml, unit, unit, active, true, files, "", 0, [])
      ensures FlagHonest(world, Now())
    {
      this.world, this.live, this.toml, this.unit, this.loaded := world, live, toml, unit, unit;
      this.active, this.restartSafe, this.files := active, true, files;
      rest, tick, starts := "", 0, [];
    }

    method WriteTomlFile(text: string) returns (ok: bool)
      modifies this
      ensures (Now(), ok) == ReplaceToml(world, old(Now()), text)
    {
      var fault := world.faults(tick);
      tick := tick + 1;
      if fault.Before? { return false; }
      toml := text;
      return fault.Fine?;
    }

    method WriteUnitFile(text: string) returns (ok: bool)
      modifies this
      ensures (Now(), ok) == ReplaceUnit(world, old(Now()), text)
    {
      var fault := world.faults(tick);
      tick := tick + 1;
      if fault.Before? { return false; }
      unit := text;
      return fault.Fine?;
    }

    method DaemonReload() returns (ok: bool)
      modifies this
      ensures (Now(), ok) == Reload(world, old(Now()))
    {
      var fault := world.faults(tick);
      tick := tick + 1;
      if fault.Before? { return false; }
      loaded := unit;
      return fault.Fine?;
    }

    method SystemctlStop() returns (ok: bool)
      modifies this
      ensures (Now(), ok) == StopService(world, old(Now()))
    {
      var fault := world.faults(tick);
      tick := tick + 1;
      if fault.Before? { return false; }
      active := false;
      return fault.Fine?;
    }

    method SystemctlStart(restoring: bool) returns (ok: bool)
      modifies this
      ensures (Now(), ok) == StartService(world, old(Now()), restoring)
    {
      var fault := world.faults(tick);
      tick := tick + 1;
      starts := starts + [Start(toml, unit, loaded, restoring)];
      if fault.Before? { return false; }
      active := true;
      return fault.Fine?;
    }

    method WriteFile(path: string, content: Option<string>) returns (ok: bool)
      modifies this
      ensures (Now(), ok) == PutFile(world, old(Now()), path, content)
    {
      var fault := world.faults(tick);
      tick := tick + 1;
      if fault.Before? { return false; }
      files := if content.Some? then files[path := content.value] else files - {path};
      return fault.Fine?;
    }

    /** Replaces the given files and reloads after a unit change, up to the first failure. */
    method InstallFiles(newToml: Option<string>, newUnit: Option<string>) returns (ok: bool)
      modifies this
      ensures (Now(), ok) == Install(world, old(Now()), newToml, newUnit)
    {
      if newToml.Some? {
        ok := WriteTomlFile(newToml.value);
        if !ok { return false; }
      }
      if newUnit.Some? {
        ok := WriteUnitFile(newUnit.value);
        if !ok { return false; }
        if live {
          ok := DaemonReload();
          return ok;
        }
      }
      return true;
    }

    method ReconcileWorkerExecution(a: Action) returns (receipt: Option<Receipt<Undo>>)
      modifies this
      ensures (Now(), receipt) == ApplyReconcile(world, old(Now()), a)
    {
      hide UnitMigration.Render, UnitMigration.Parse, Install, InspectReconcile;
      var inspection := InspectReconcile(world, Now(), a);
      if inspection.Satisfied? { return Some(Receipt(false, Nothing)); }
      if inspection.Blocked? { return None; }
      if live && active { return None; }
      var tomlPrevious, unitPrevious := toml, unit;
      var tomlDesired, unitDesired := world.renderToml(toml), UnitMigration.Render(world.template, unit);
      if tomlDesired.None? || unitDesired.None? { return None; }
      var tomlChanged, unitChanged := tomlPrevious != tomlDesired.value, unitPrevious != unitDesired.value;
      if live && (tomlChanged || unitChanged) { restartSafe := false; }
      ghost var unsafe := Now();
      var ok := InstallFiles(if tomlChanged then Some(tomlDesired.value) else None,
                             if unitChanged then Some(unitDesired.value) else None);
      ghost var installed := Now();
      if ok {
        if live { restartSafe := true; }
        receipt := Some(Receipt(tomlChanged || unitChanged, Previous(tomlPrevious, unitPrevious)));
      } else {
        var restored := InstallFiles(if tomlChanged then Some(tomlPrevious) else None,
                                     if unitChanged then Some(unitPrevious) else None);
        if live { restartSafe := restored; }
        receipt := None;
      }
    }

    method UndoReconcile(tomlPrevious: string, unitPrevious: string) returns (changed: Option<bool>)
      modifies this
      ensures (Now(), changed) == RollbackReconcile(world, old(Now()), tomlPrevious, unitPrevious)
    {
      hide Install;
      if live {
        restartSafe := false;
        if active {
          var stopped := SystemctlStop();
          if !stopped { return None; }
        }
      }
      var ok := InstallFiles(Some(tomlPrevious), Some(unitPrevious));
      if !ok { return None; }
      if live { restartSafe := true; }
      return Some(true);
    }

    method StopWorker(a: Action) returns (receipt: Option<Receipt<Undo>>)
      modifies this
      ensures (Now(), receipt) == ApplyStop(world, old(Now()), a)
    {
      hide UnitMigration.Parse, InspectStop;
      var inspection := InspectStop(world, Now(), a);
      if inspection.Satisfied? { return Some(Receipt(false, Nothing)); }
      if inspection.Blocked? { return None; }
      var ok := SystemctlStop();
      return if ok then Some(Receipt(true, WasActive)) else None;
    }

    method UndoStop() returns (changed: Option<bool>)
      modifies this
      ensures (Now(), changed) == RollbackStop(world, old(Now()))
    {
      hide UnitMigration.Parse, Contract;
      if !live { return Some(false); }
      if !restartSafe { return Some(false); }
      var mode := Contract(world, Now());
      if mode.None? || mode.value { return Some(false); }
      var ok := SystemctlStart(true);
      return if ok then Some(true) else None;
    }

    /** Writes every file that differs from its snapshot, recording each completed write. */
    method RenderFiles(items: seq<Written>) returns (written: seq<Written>, ok: bool)
      modifies this
      ensures (Now(), written, ok) == WriteAll(world, old(Now()), items)
    {
      hide PutFile;
      written, ok := [], true;
      var i := 0;
      assert items[0..] == items;
      ResumedStart(WriteAll(world, Now(), items));
      while i < |items|
        invariant 0 <= i <= |items|
        invariant ok
        invariant WriteAll(world, old(Now()), items) == Resumed(written, WriteAll(world, Now(), items[i..]))
      {
        var item := items[i];
        assert items[i..][0] == item && items[i..][1..] == items[i + 1..];
        if item.previous != Some(item.installed) {
          ok := WriteFile(item.path, Some(item.installed));
          if !ok {
            assert written + [] == written;
            return;
          }
          ResumedOnward(written, item, WriteAll(world, Now(), items[i + 1..]));
          written := written + [item];
        }
        i := i + 1;
      }
      assert items[i..] == [] && written + [] == written;
    }

    /** Restores recorded files from the last back; a file changed since stops it. */
    method RestoreFiles(items: seq<Written>) returns (ok: bool)
      modifies this
      ensures (Now(), ok) == RestoreAll(world, old(Now()), items)
    {
      hide PutFile;
      var i := |items|;
      assert items[..i] == items;
      while i > 0
        invariant 0 <= i <= |items|
        invariant RestoreAll(world, old(Now()), items) == RestoreAll(world, Now(), items[..i])
      {
        var item := items[i - 1];
        assert items[..i][..i - 1] == items[..i - 1];
        if item.path !in files || files[item.path] != item.installed { return false; }
        ok := WriteFile(item.path, item.previous);
        if !ok { return false; }
        i := i - 1;
      }
      return true;
    }

    method RenderConfiguration(a: Action) returns (receipt: Option<Receipt<Undo>>)
      modifies this
      ensures (Now(), receipt) == ApplyRender(world, old(Now()), a)
    {
      hide WriteAll, RestoreAll, RenderBlocked;
      if RenderBlocked(world, Now(), a) || world.targets(a).None? { return None; }
      var written, ok := RenderFiles(Planned(Now(), world.targets(a).value));
      if ok { return Some(Receipt(written != [], Files(written))); }
      var restored := RestoreFiles(written);
      return None;
    }
  }

  function Resumed(written: seq<Written>, pass: (Host, seq<Written>, bool)): (Host, seq<Written>, bool) {
    (pass.0, written + pass.1, pass.2)
  }

  lemma ResumedStart(pass: (Host, seq<Written>, bool))
    ensures Resumed([], pass) == pass
  {
    assert [] + pass.1 == pass.1;
  }

  lemma ResumedOnward(written: seq<Written>, item: Written, pass: (Host, seq<Written>, bool))
    ensures Resumed(written, (pass.0, [item] + pass.1, pass.2)) == Resumed(written + [item], pass)
  {
    assert written + ([item] + pass.1) == written + [item] + pass.1;
  }
}
