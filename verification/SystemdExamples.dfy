/** The installed smoke Worker on a host where one call fails: which failures of a migration,
    of a rendering and of a start stay behind. */
module SystemdExamples {
  import opened Contracts
  import opened SetupApply
  import opened Systemd
  import opened SystemdRestore
  import opened SystemdMigration
  import opened SystemdFiles
  import opened SystemdStarts
  import UnitMigration
  import UnitRoundTrip
  import UnitTemplate
  import UnitCounts

  const IDLE: Driver<Opaque, Undo> := Driver(
    (rest: Opaque, a: Action) => (rest, Some(Satisfied)),
    (rest: Opaque, a: Action) => (rest, None),
    (rest: Opaque, a: Action, r: Receipt<Undo>) => (rest, None))

  /** Only the very first call fails, as `fault` says. */
  function FirstCallFails(fault: Fault, targets: seq<(string, string)>): World {
    World(
      (k: nat) => if k == 0 then fault else Fine,
      (toml: string) => Some(toml == "runtime"),
      (toml: string) => Some("runtime"),
      UnitMigration.CANONICAL,
      "astrumweaver",
      (a: Action) => true,
      (a: Action) => Some(targets),
      (a: Action) => false,
      (h: Host, a: Action) => true,
      (h: Host, a: Action) => true,
      IDLE)
  }

  function Installed(): Host {
    var unit := UnitMigration.Print(UnitMigration.CANONICAL, UnitCounts.SMOKE);
    Host(true, "smoke", unit, unit, true, true, map[], "", 0, [])
  }

  const STOP := Action("01", WorkerStop, "", true, false, false, true)
  const RECONCILE := Action("02", ReconcileWorker, "", true, false, false, true)
  const PREFLIGHT := Action("03", Preflight, "", false, false, false, false)
  const START := Action("04", RuntimeStart, "", true, false, false, true)
  const HEALTH := Action("05", HealthCheck, "", false, false, false, false)
  const MIGRATION := [STOP, RECONCILE, PREFLIGHT, START, HEALTH]

  lemma InstalledRuns(fault: Fault)
    ensures RunningSmoke(FirstCallFails(fault, []), Installed()) && Valid(FirstCallFails(fault, []))
    ensures RendersRuntime(FirstCallFails(fault, []))
  {
    hide UnitMigration.CANONICAL, UnitMigration.Print, UnitMigration.Parse, UnitRoundTrip.Canonical;
    UnitCounts.SmokeIsPatched();
    UnitTemplate.InstalledTemplate();
    assert "smoke" != "runtime" by { assert |"smoke"| != |"runtime"|; }
  }

  lemma StopFailsFirst(fault: Fault)
    requires !fault.Fine?
    ensures var w, h := FirstCallFails(fault, []), Installed();
            && Forward(DriverOf(w), h, MIGRATION) == Stopped(StopService(w, h).0, STOP, Status.Failed)
            && (StopTorn(w, h, MIGRATION) <==> fault.After?)
  {
    var w, h := FirstCallFails(fault, []), Installed();
    InstalledRuns(fault);
    hide RunningSmoke, Inspect, Apply, DriverOf, Installed, StopTorn;
    SmokeIsItself(w, h);
    StopInspected(w, h, h, STOP);
    DriverHandles(w, h, STOP);
    StopAnswers(fault);
    StopTornFirst(w, h, MIGRATION);
  }

  lemma StopAnswers(fault: Fault)
    requires !fault.Fine?
    ensures var w, h := FirstCallFails(fault, []), Installed();
            h.tick == 0 && w.reviewed(STOP) && !StopService(w, h).1 && (w.faults(0).After? <==> fault.After?)
  {
    hide UnitMigration.CANONICAL, UnitMigration.Print;
  }

  lemma StopTornFirst(w: World, h: Host, actions: seq<Action>)
    requires actions != [] && actions[0].kind.WorkerStop? && w.reviewed(actions[0])
    requires DriverOf(w).inspect(h, actions[0]) == (h, Some(NeedsApply)) && DriverOf(w).apply(h, actions[0]).1.None?
    ensures StopTorn(w, h, actions) <==> w.faults(h.tick).After?
  {
    hide DriverOf;
  }

  /** The exception is real: a stop that fails before its effect is followed by a complete
      restoration, and one that fails after it leaves the Worker stopped. */
  lemma StopMayStay(fault: Fault)
    requires !fault.Fine?
    ensures var w, h := FirstCallFails(fault, []), Installed();
            && Valid(w) && RendersRuntime(w) && RunningSmoke(w, h) && Migration(MIGRATION, 0) && AtMostOneFault(w)
            && !Forward(DriverOf(w), h, MIGRATION).ok && Calm(w, Forward(DriverOf(w), h, MIGRATION).target.tick)
            && (SameWorker(h, Outcome(DriverOf(w), h, MIGRATION, true).target) <==> fault.Before?)
  {
    var w, h := FirstCallFails(fault, []), Installed();
    InstalledRuns(fault);
    StopFailsFirst(fault);
    FiveActions(STOP, RECONCILE, PREFLIGHT, START, HEALTH);
    FirstOnly(fault);
    StopAnswers(fault);
    hide RunningSmoke, DriverOf, Installed, FirstCallFails, StopTorn, Migration;
    OneFailureRestores(w, h, MIGRATION);
  }

  lemma FirstOnly(fault: Fault)
    ensures var w := FirstCallFails(fault, []);
            AtMostOneFault(w) && Calm(w, StopService(w, Installed()).0.tick)
  {
    hide UnitMigration.CANONICAL, UnitMigration.Print;
  }

  const RENDER := Action("01", RenderConfig, "", true, false, false, true)

  /** A rendering whose first write fails after replacing the file leaves that file behind. */
  lemma TornWriteStays(content: string)
    ensures var w, h := FirstCallFails(After, [("runtime.conf", content)]), Installed();
            && !RenderBlocked(w, h, RENDER) && Calm(w, WriteAll(w, h, Planned(h, w.targets(RENDER).value)).0.tick)
            && ApplyRender(w, h, RENDER).1.None?
            && h.files == map[] && ApplyRender(w, h, RENDER).0.files == map["runtime.conf" := content]
  {
    hide UnitMigration.CANONICAL, UnitMigration.Print;
    var w, h := FirstCallFails(After, [("runtime.conf", content)]), Installed();
    var items := Planned(h, [("runtime.conf", content)]);
    assert items == [Written("runtime.conf", None, content)];
    WriteAllUnfolds(w, h, items);
    RestoreNothing(w, PutFile(w, h, "runtime.conf", Some(content)).0);
  }

  lemma SingleStart(w: World, h: Host)
    requires h.live && !h.active && !w.faults(h.tick).Fine?
    ensures Forward(DriverOf(w), h, [START]) == Stopped(StartService(w, h, false).0, START, Status.Failed)
    ensures StartTorn(w, h, [START]) <==> w.faults(h.tick).After?
  {
    hide InspectStop, InspectReconcile, InspectRender, ApplyStop, ApplyReconcile, ApplyRender, ApplyRelease;
    hide DriverOf;
    DriverCalls(w, h, START);
    assert [START][1..] == [];
  }

  /** That exception is real as well: of a start that fails on a stopped service, the one that
      fails before its effect leaves the service stopped, the one that fails after it running. */
  lemma StartMayStay(fault: Fault)
    requires !fault.Fine?
    ensures var w, h := FirstCallFails(fault, []), Installed().(active := false);
            && !Forward(DriverOf(w), h, [START]).ok && Calm(w, Forward(DriverOf(w), h, [START]).target.tick)
            && (Outcome(DriverOf(w), h, [START], true).target.active <==> fault.After?)
  {
    var w, h := FirstCallFails(fault, []), Installed().(active := false);
    assert h.live && !h.active && h.tick == 0 && w.faults(0) == fault && Calm(w, 1) by {
      hide UnitMigration.CANONICAL, UnitMigration.Print;
    }
    hide DriverOf, Installed, FirstCallFails, Calm;
    SingleStart(w, h);
    FailureStopsService(w, h, [START]);
  }
}
