/** The systemd driver of a Worker migration.  A host is what its calls change; every
    fallible call (replacing a file, reloading, stopping or starting a unit) consults one
    entry of an arbitrary fault sequence, and may fail before or after its effect. */
module Systemd {
  import opened Contracts
  import opened SetupApply
  import UnitMigration

  datatype Fault = Fine | Before | After

  /** A service start: the files and the loaded unit it ran with, and who asked. */
  datatype Start = Start(toml: string, unit: string, loaded: string, restoring: bool)

  datatype Written = Written(path: string, previous: Option<string>, installed: string)

  datatype Undo =
    | Nothing
    | WasActive
    | Files(items: seq<Written>)
    | Previous(toml: string, unit: string)
    | Elsewhere(data: Opaque)

  datatype Host = Host(
    live: bool, toml: string, unit: string, loaded: string, active: bool, restartSafe: bool,
    files: map<string, string>, rest: Opaque, tick: nat, starts: seq<Start>)

  /** What the driver is configured with: the faults it will meet, how worker.toml parses
      (`true` for runtime execution) and renders, and what its actions review. */
  datatype World = World(
    faults: nat -> Fault,
    tomlMode: string -> Option<bool>,
    renderToml: string -> Option<string>,
    template: UnitMigration.Template,
    serviceUser: string,
    reviewed: Action -> bool,
    targets: Action -> Option<seq<(string, string)>>,
    migrates: Action -> bool,
    manifestMatches: (Host, Action) -> bool,
    providerMatches: (Host, Action) -> bool,
    others: Driver<Opaque, Undo>)

  ghost predicate Valid(w: World) {
    w.template.Valid()
  }

  // ------------------------------------------------------------------ fallible calls

  function Ticked(h: Host): Host {
    h.(tick := h.tick + 1)
  }

  function ReplaceToml(w: World, h: Host, text: string): (Host, bool) {
    match w.faults(h.tick)
    case Fine => (Ticked(h).(toml := text), true)
    case Before => (Ticked(h), false)
    case After => (Ticked(h).(toml := text), false)
  }

  function ReplaceUnit(w: World, h: Host, text: string): (Host, bool) {
    match w.faults(h.tick)
    case Fine => (Ticked(h).(unit := text), true)
    case Before => (Ticked(h), false)
    case After => (Ticked(h).(unit := text), false)
  }

  function PutFile(w: World, h: Host, path: string, content: Option<string>): (Host, bool) {
    var files := if content.Some? then h.files[path := content.value] else h.files - {path};
    match w.faults(h.tick)
    case Fine => (Ticked(h).(files := files), true)
    case Before => (Ticked(h), false)
    case After => (Ticked(h).(files := files), false)
  }

  function Reload(w: World, h: Host): (Host, bool) {
    match w.faults(h.tick)
    case Fine => (Ticked(h).(loaded := h.unit), true)
    case Before => (Ticked(h), false)
    case After => (Ticked(h).(loaded := h.unit), false)
  }

  function StopService(w: World, h: Host): (Host, bool) {
    match w.faults(h.tick)
    case Fine => (Ticked(h).(active := false), true)
    case Before => (Ticked(h), false)
    case After => (Ticked(h).(active := false), false)
  }

  /** A start is recorded even when it fails: the service may have come up. */
  function StartService(w: World, h: Host, restoring: bool): (Host, bool) {
    var noted := Ticked(h).(starts := h.starts + [Start(h.toml, h.unit, h.loaded, restoring)]);
    match w.faults(h.tick)
    case Fine => (noted.(active := true), true)
    case Before => (noted, false)
    case After => (noted.(active := true), false)
  }

  // --------------------------------------------------------------------- inspections

  /** The execution mode config and unit agree on, or `None` where loading is refused. */
  function Contract(w: World, h: Host): Option<bool> {
    var mode, unit := w.tomlMode(h.toml), UnitMigration.Parse(w.template, h.unit);
    if mode.None? || unit.None? || unit.value.user != w.serviceUser then None
    else if mode.value != unit.value.runtime then None
    else mode
  }

  function InspectStop(w: World, h: Host, a: Action): Inspection {
    var contract := Contract(w, h);
    if !w.reviewed(a) || contract.None? then Blocked
    else if contract.value && !w.manifestMatches(h, a) then Blocked
    else if contract.value && UnitMigration.Parse(w.template, h.unit).value.bridge then Satisfied
    else if h.live && h.active then NeedsApply
    else Satisfied
  }

  function InspectReconcile(w: World, h: Host, a: Action): Inspection {
    var contract := Contract(w, h);
    if !w.reviewed(a) || contract.None? then Blocked
    else if !contract.value then NeedsApply
    else if !w.providerMatches(h, a) || !w.manifestMatches(h, a) then Blocked
    else if UnitMigration.Render(w.template, h.unit).None? then Blocked
    else if UnitMigration.Render(w.template, h.unit).value != h.unit then NeedsApply
    else Satisfied
  }

  function Content(h: Host, path: string): Option<string> {
    if path in h.files then Some(h.files[path]) else None
  }

  predicate AllInstalled(h: Host, targets: seq<(string, string)>) {
    forall i :: 0 <= i < |targets| ==> Content(h, targets[i].0) == Some(targets[i].1)
  }

  /** An already migrated Worker accepts only the configuration it already runs. */
  predicate RenderBlocked(w: World, h: Host, a: Action) {
    w.migrates(a) &&
    (Contract(w, h).None?
     || (Contract(w, h).value && (w.targets(a).None? || !w.providerMatches(h, a) || !AllInstalled(h, w.targets(a).value))))
  }

  function InspectRender(w: World, h: Host, a: Action): Inspection {
    if RenderBlocked(w, h, a) || w.targets(a).None? then Blocked
    else if AllInstalled(h, w.targets(a).value) then Satisfied
    else NeedsApply
  }

  function Inspect(w: World, h: Host, a: Action): Option<Inspection> {
    match a.kind
    case WorkerStop => Some(InspectStop(w, h, a))
    case ReconcileWorker => Some(InspectReconcile(w, h, a))
    case RenderConfig => Some(InspectRender(w, h, a))
    case RuntimeStart => Some(if !h.live then Blocked else if h.active then Satisfied else NeedsApply)
    case RuntimeStop => Some(if h.live && h.active then NeedsApply else Satisfied)
    case RuntimeRelease => Some(if h.live && h.active then NeedsApply else Satisfied)
    case _ => w.others.inspect(h.rest, a).1
  }

  // ----------------------------------------------------------------- rendered files

  function WriteAll(w: World, h: Host, items: seq<Written>): (Host, seq<Written>, bool)
    decreases |items|
  {
    if items == [] then (h, [], true)
    else if items[0].previous == Some(items[0].installed) then WriteAll(w, h, items[1..])
    else
      var (next, ok) := PutFile(w, h, items[0].path, Some(items[0].installed));
      if !ok then (next, [], false)
      else
        var (last, written, done) := WriteAll(w, next, items[1..]);
        (last, [items[0]] + written, done)
  }

  /** Restoring from the last file back; a file changed since stops the restoration. */
  function RestoreAll(w: World, h: Host, items: seq<Written>): (Host, bool)
    decreases |items|
  {
    if items == [] then (h, true)
    else
      var item := items[|items| - 1];
      if Content(h, item.path) != Some(item.installed) then (h, false)
      else
        var (next, ok) := PutFile(w, h, item.path, item.previous);
        if !ok then (next, false) else RestoreAll(w, next, items[..|items| - 1])
  }

  function Planned(h: Host, targets: seq<(string, string)>): seq<Written> {
    seq(|targets|, i requires 0 <= i < |targets| => Written(targets[i].0, Content(h, targets[i].0), targets[i].1))
  }

  function ApplyRender(w: World, h: Host, a: Action): (Host, Option<Receipt<Undo>>) {
    if RenderBlocked(w, h, a) || w.targets(a).None? then (h, None)
    else
      var (next, written, ok) := WriteAll(w, h, Planned(h, w.targets(a).value));
      if ok then (next, Some(Receipt(written != [], Files(written))))
      else (RestoreAll(w, next, written).0, None)
  }

  // ---------------------------------------------------------------------- execution

  function ApplyStop(w: World, h: Host, a: Action): (Host, Option<Receipt<Undo>>) {
    match InspectStop(w, h, a)
    case Satisfied => (h, Some(Receipt(false, Nothing)))
    case Blocked => (h, None)
    case NeedsApply =>
      var (next, ok) := StopService(w, h);
      (next, if ok then Some(Receipt(true, WasActive)) else None)
  }

  /** The two files and the loaded unit, replaced in order up to the first failure. */
  function Install(w: World, h: Host, toml: Option<string>, unit: Option<string>): (Host, bool) {
    var (h1, ok1) := if toml.Some? then ReplaceToml(w, h, toml.value) else (h, true);
    if !ok1 then (h1, false) else InstallUnit(w, h1, unit)
  }

  function InstallUnit(w: World, h: Host, unit: Option<string>): (Host, bool) {
    if unit.None? then (h, true)
    else
      var (next, ok) := ReplaceUnit(w, h, unit.value);
      if ok && h.live then Reload(w, next) else (next, ok)
  }

  function Changed(from: string, to: string): Option<string> {
    if from == to then None else Some(to)
  }

  function ApplyReconcile(w: World, h: Host, a: Action): (Host, Option<Receipt<Undo>>) {
    match InspectReconcile(w, h, a)
    case Satisfied => (h, Some(Receipt(false, Nothing)))
    case Blocked => (h, None)
    case NeedsApply =>
      var toml, unit := w.renderToml(h.toml), UnitMigration.Render(w.template, h.unit);
      if (h.live && h.active) || toml.None? || unit.None? then (h, None)
      else
        var newToml, newUnit := Changed(h.toml, toml.value), Changed(h.unit, unit.value);
        var oldToml := if newToml.Some? then Some(h.toml) else None;
        var oldUnit := if newUnit.Some? then Some(h.unit) else None;
        var unsafe := if h.live && (newToml.Some? || newUnit.Some?) then h.(restartSafe := false) else h;
        var (installed, ok) := Install(w, unsafe, newToml, newUnit);
        if ok then
          (if h.live then installed.(restartSafe := true) else installed,
           Some(Receipt(newToml.Some? || newUnit.Some?, Previous(h.toml, h.unit))))
        else
          var (restored, back) := Install(w, installed, oldToml, oldUnit);
          (if h.live then restored.(restartSafe := back) else restored, None)
  }

  function RollbackReconcile(w: World, h: Host, toml: string, unit: string): (Host, Option<bool>) {
    var (quiet, stopped) :=
      if h.live && h.active then StopService(w, h.(restartSafe := false))
      else if h.live then (h.(restartSafe := false), true)
      else (h, true);
    if !stopped then (quiet, None)
    else
      var (installed, ok) := Install(w, quiet, Some(toml), Some(unit));
      if !ok then (installed, None)
      else (if h.live then installed.(restartSafe := true) else installed, Some(true))
  }

  /** The restart of the previous Worker: refused unless the reload was proven safe and
      config and unit agree on smoke execution. */
  function RollbackStop(w: World, h: Host): (Host, Option<bool>) {
    if !h.live || !h.restartSafe || Contract(w, h) != Some(false) then (h, Some(false))
    else
      var (next, ok) := StartService(w, h, true);
      (next, if ok then Some(true) else None)
  }

  function Apply(w: World, h: Host, a: Action): (Host, Option<Receipt<Undo>>) {
    match a.kind
    case WorkerStop => ApplyStop(w, h, a)
    case ReconcileWorker => ApplyReconcile(w, h, a)
    case RenderConfig => ApplyRender(w, h, a)
    case RuntimeStart =>
      var (next, ok) := StartService(w, h, false);
      (next, if ok then Some(Receipt(true, Nothing)) else None)
    case RuntimeStop => ApplyRelease(w, h)
    case RuntimeRelease => ApplyRelease(w, h)
    case _ =>
      var (rest, receipt) := w.others.apply(h.rest, a);
      (h.(rest := rest), receipt)
  }

  function ApplyRelease(w: World, h: Host): (Host, Option<Receipt<Undo>>) {
    if !h.live || !h.active then (h, Some(Receipt(false, Nothing)))
    else
      var (next, ok) := StopService(w, h);
      (next, if ok then Some(Receipt(true, Nothing)) else None)
  }

  function Undone(w: World, h: Host, a: Action, r: Receipt<Undo>): (Host, Option<bool>) {
    if !r.changed then (h, Some(false))
    else match a.kind
      case WorkerStop => if r.undo.WasActive? then RollbackStop(w, h) else (h, Some(false))
      case ReconcileWorker =>
        if r.undo.Previous? then RollbackReconcile(w, h, r.undo.toml, r.undo.unit) else (h, None)
      case RenderConfig =>
        var items := if r.undo.Files? then r.undo.items else [];
        var (next, ok) := RestoreAll(w, h, items);
        (next, if ok then Some(items != []) else None)
      case RuntimeStart =>
        var (next, ok) := StopService(w, h);
        (next, if ok then Some(true) else None)
      case RuntimeStop => (h, Some(false))
      case RuntimeRelease => (h, Some(false))
      case _ =>
        var (rest, changed) := w.others.rollback(h.rest, a, r);
        (h.(rest := rest), changed)
  }

  function DriverOf(w: World): Driver<Host, Undo> {
    Driver((h: Host, a: Action) => (if HandledHere(a.kind) then h else h.(rest := w.others.inspect(h.rest, a).0), Inspect(w, h, a)),
           (h: Host, a: Action) => Apply(w, h, a),
           (h: Host, a: Action, r: Receipt<Undo>) => Undone(w, h, a, r))
  }

  predicate HandledHere(k: Kind) {
    k.WorkerStop? || k.ReconcileWorker? || k.RenderConfig? || k.RuntimeStart? || k.RuntimeStop? || k.RuntimeRelease?
  }

  // ------------------------------------------------------------------------- safety

  predicate IsSmoke(w: World, toml: string, unit: string) {
    && w.tomlMode(toml) == Some(false)
    && UnitMigration.Parse(w.template, unit).Some? && !UnitMigration.Parse(w.template, unit).value.runtime
  }

  predicate StartsSafely(w: World, starts: seq<Start>) {
    forall n :: n in starts && n.restoring ==> IsSmoke(w, n.toml, n.unit) && n.loaded == n.unit
  }

  /** The flag is never up while systemd has another unit loaded than the disk holds. */
  predicate FlagHonest(w: World, h: Host) {
    && (h.live && h.restartSafe ==> h.loaded == h.unit)
    && StartsSafely(w, h.starts)
  }

  /** A unit that still needs reconciling is always rewritten, never left as it is. */
  lemma ReconcileRewrites(w: World, h: Host, a: Action)
    requires Valid(w) && InspectReconcile(w, h, a).NeedsApply? && UnitMigration.Render(w.template, h.unit).Some?
    ensures UnitMigration.Render(w.template, h.unit).value != h.unit
  {
    hide UnitMigration.Parse, UnitMigration.Render, UnitMigration.Print;
    UnitMigration.RenderIsRecordUpdate(w.template, h.unit);
  }

  lemma InstallUnitLoads(w: World, h: Host, unit: Option<string>)
    ensures var (t, ok) := InstallUnit(w, h, unit);
            && t == h.(unit := t.unit, loaded := t.loaded, tick := t.tick)
            && (ok && h.live && unit.Some? ==> t.loaded == t.unit)
            && (ok ==> t.unit == (if unit.Some? then unit.value else h.unit))
  {
  }

  /** After a complete installation the loaded unit is the one on disk. */
  lemma InstallLoads(w: World, h: Host, toml: Option<string>, unit: Option<string>)
    ensures var (t, ok) := Install(w, h, toml, unit);
            && t.live == h.live && t.restartSafe == h.restartSafe && t.starts == h.starts && t.active == h.active
            && t.files == h.files && t.rest == h.rest
            && (ok && h.live && unit.Some? ==> t.loaded == t.unit)
            && (ok ==> t.toml == (if toml.Some? then toml.value else h.toml))
            && (ok ==> t.unit == (if unit.Some? then unit.value else h.unit))
  {
    hide InstallUnit;
    InstallUnitLoads(w, if toml.Some? then ReplaceToml(w, h, toml.value).0 else h, unit);
  }

  lemma ReconcileHonest(w: World, h: Host, a: Action)
    requires Valid(w) && FlagHonest(w, h)
    ensures FlagHonest(w, ApplyReconcile(w, h, a).0)
  {
    hide UnitMigration.Parse, UnitMigration.Render, Install, StartsSafely, Contract;
    var toml, unit := w.renderToml(h.toml), UnitMigration.Render(w.template, h.unit);
    if InspectReconcile(w, h, a).NeedsApply? && !(h.live && h.active) && toml.Some? && unit.Some? {
      ReconcileRewrites(w, h, a);
      var newToml, newUnit := Changed(h.toml, toml.value), Changed(h.unit, unit.value);
      var oldToml := if newToml.Some? then Some(h.toml) else None;
      var unsafe := if h.live then h.(restartSafe := false) else h;
      InstallLoads(w, unsafe, newToml, newUnit);
      InstallLoads(w, Install(w, unsafe, newToml, newUnit).0, oldToml, Some(h.unit));
    }
  }

  lemma RollbackReconcileHonest(w: World, h: Host, toml: string, unit: string)
    requires FlagHonest(w, h)
    ensures FlagHonest(w, RollbackReconcile(w, h, toml, unit).0)
  {
    hide Install, StartsSafely;
    var quiet := if h.live && h.active then StopService(w, h.(restartSafe := false)).0
                 else if h.live then h.(restartSafe := false) else h;
    InstallLoads(w, quiet, Some(toml), Some(unit));
  }

  lemma RollbackStopHonest(w: World, h: Host)
    requires FlagHonest(w, h)
    ensures FlagHonest(w, RollbackStop(w, h).0)
  {
    hide UnitMigration.Parse;
  }

  lemma PutAside(w: World, h: Host, path: string, content: Option<string>)
    ensures var t := PutFile(w, h, path, content).0; t == h.(files := t.files, tick := t.tick)
  {
  }

  lemma {:induction false} WriteAllAside(w: World, h: Host, items: seq<Written>)
    ensures var t := WriteAll(w, h, items).0; t == h.(files := t.files, tick := t.tick)
    decreases |items|
  {
    hide PutFile;
    if items != [] { PutAside(w, h, items[0].path, Some(items[0].installed)); }
    if items != [] && items[0].previous != Some(items[0].installed) {
      WriteAllAside(w, PutFile(w, h, items[0].path, Some(items[0].installed)).0, items[1..]);
    } else if items != [] {
      WriteAllAside(w, h, items[1..]);
    }
  }

  lemma {:induction false} RestoreAllAside(w: World, h: Host, items: seq<Written>)
    ensures var t := RestoreAll(w, h, items).0; t == h.(files := t.files, tick := t.tick)
    decreases |items|
  {
    if items != [] {
      hide PutFile;
      var item := items[|items| - 1];
      PutAside(w, h, item.path, item.previous);
      RestoreAllAside(w, PutFile(w, h, item.path, item.previous).0, items[..|items| - 1]);
    }
  }

  lemma ApplyHonest(w: World, h: Host, a: Action)
    requires Valid(w) && FlagHonest(w, h)
    ensures FlagHonest(w, Apply(w, h, a).0)
  {
    hide UnitMigration.Parse, UnitMigration.Render, ApplyReconcile, WriteAll, RestoreAll, Contract;
    if a.kind.ReconcileWorker? {
      ReconcileHonest(w, h, a);
    } else if a.kind.RenderConfig? && w.targets(a).Some? {
      var items := Planned(h, w.targets(a).value);
      var (next, written, ok) := WriteAll(w, h, items);
      WriteAllAside(w, h, items);
      RestoreAllAside(w, next, written);
    }
  }

  lemma RollbackHonest(w: World, h: Host, a: Action, r: Receipt<Undo>)
    requires FlagHonest(w, h)
    ensures FlagHonest(w, Undone(w, h, a, r).0)
  {
    hide UnitMigration.Parse, RollbackReconcile, RollbackStop, RestoreAll;
    if a.kind.ReconcileWorker? && r.undo.Previous? { RollbackReconcileHonest(w, h, r.undo.toml, r.undo.unit); }
    if a.kind.WorkerStop? { RollbackStopHonest(w, h); }
    if a.kind.RenderConfig? { RestoreAllAside(w, h, if r.undo.Files? then r.undo.items else []); }
  }

  /** For every plan and every pattern of failures, every restart a rollback makes runs a
      smoke Worker: config and unit both parse as smoke, and the loaded unit is the one on
      disk.  All it needs is that disk and loaded unit agreed at the start. */
  lemma RestartsAreSafe(w: World, h: Host, actions: seq<Action>, rollbackOnFailure: bool)
    requires Valid(w) && (h.live ==> h.loaded == h.unit) && h.starts == []
    ensures var t := Outcome(DriverOf(w), h, actions, rollbackOnFailure).target;
            && (forall n :: n in t.starts && n.restoring ==> IsSmoke(w, n.toml, n.unit) && n.loaded == n.unit)
            && (t.live && t.restartSafe ==> t.loaded == t.unit)
  {
    var good := (t: Host) => FlagHonest(w, t);
    var d := DriverOf(w);
    hide Apply, Undone, Inspect, IsSmoke;
    forall t: Host, a: Action | good(t) ensures good(d.inspect(t, a).0) && good(d.apply(t, a).0) {
      ApplyHonest(w, t, a);
    }
    forall t: Host, a: Action, r: Receipt<Undo> | good(t) ensures good(d.rollback(t, a, r).0) {
      RollbackHonest(w, t, a, r);
    }
    OutcomeKeeps(d, good, h, actions, rollbackOnFailure);
  }

  predicate StartsLoaded(h: Host) {
    forall n :: n in h.starts ==> n.loaded == n.unit
  }

  /** While no call has raised, the flag is up and whatever starts runs the unit on disk. */
  lemma ApplyStaysSafe(w: World, h: Host, a: Action)
    requires Valid(w) && FlagHonest(w, h) && h.live && h.restartSafe && StartsLoaded(h)
    ensures var (t, r) := Apply(w, h, a); t.live && StartsLoaded(t) && (r.Some? ==> t.restartSafe)
  {
    hide UnitMigration.Parse, UnitMigration.Render, Install, WriteAll, RestoreAll, Contract;
    if a.kind.RenderConfig? && w.targets(a).Some? {
      var items := Planned(h, w.targets(a).value);
      var (next, written, ok) := WriteAll(w, h, items);
      WriteAllAside(w, h, items);
      RestoreAllAside(w, next, written);
    } else if a.kind.ReconcileWorker? {
      ReconcileStarts(w, h, a);
    }
  }

  lemma ReconcileStarts(w: World, h: Host, a: Action)
    ensures ApplyReconcile(w, h, a).0.starts == h.starts && ApplyReconcile(w, h, a).0.live == h.live
  {
    hide UnitMigration.Parse, UnitMigration.Render, Install, InspectReconcile;
    var toml, unit := w.renderToml(h.toml), UnitMigration.Render(w.template, h.unit);
    if toml.Some? && unit.Some? {
      var newToml, newUnit := Changed(h.toml, toml.value), Changed(h.unit, unit.value);
      var oldToml := if newToml.Some? then Some(h.toml) else None;
      var oldUnit := if newUnit.Some? then Some(h.unit) else None;
      var unsafe := if h.live && (newToml.Some? || newUnit.Some?) then h.(restartSafe := false) else h;
      InstallLoads(w, unsafe, newToml, newUnit);
      InstallLoads(w, Install(w, unsafe, newToml, newUnit).0, oldToml, oldUnit);
    }
  }

  lemma {:induction false} ForwardStaysSafe(w: World, h: Host, actions: seq<Action>)
    requires Valid(w) && FlagHonest(w, h) && h.live && h.restartSafe && StartsLoaded(h)
    ensures var t := Forward(DriverOf(w), h, actions).target; FlagHonest(w, t) && StartsLoaded(t) && t.live
    decreases |actions|
  {
    hide FlagHonest, StartsLoaded, Apply, Inspect;
    if actions != [] {
      var a := actions[0];
      var seen := if HandledHere(a.kind) then h else h.(rest := w.others.inspect(h.rest, a).0);
      SeenSafe(w, h, seen.rest);
      ApplyHonest(w, seen, a);
      ApplyStaysSafe(w, seen, a);
      ForwardStaysSafe(w, seen, actions[1..]);
      if Apply(w, seen, a).1.Some? { ForwardStaysSafe(w, Apply(w, seen, a).0, actions[1..]); }
    }
  }

  lemma SeenSafe(w: World, h: Host, rest: Opaque)
    ensures FlagHonest(w, h.(rest := rest)) <==> FlagHonest(w, h)
    ensures StartsLoaded(h.(rest := rest)) <==> StartsLoaded(h)
  {
  }

  lemma UndoneStarts(w: World, h: Host, a: Action, r: Receipt<Undo>)
    requires FlagHonest(w, h) && StartsLoaded(h)
    ensures StartsLoaded(Undone(w, h, a, r).0)
  {
    hide UnitMigration.Parse, Install, RestoreAll, Contract;
    if a.kind.RenderConfig? { RestoreAllAside(w, h, if r.undo.Files? then r.undo.items else []); }
    if a.kind.ReconcileWorker? && r.undo.Previous? {
      var quiet := if h.live && h.active then StopService(w, h.(restartSafe := false)).0
                   else if h.live then h.(restartSafe := false) else h;
      InstallLoads(w, quiet, Some(r.undo.toml), Some(r.undo.unit));
    }
  }

  lemma {:induction false} UnwoundStarts(w: World, h: Host, calls: seq<Done<Undo>>)
    requires FlagHonest(w, h) && StartsLoaded(h)
    ensures StartsLoaded(Unwound(DriverOf(w), h, calls))
    decreases |calls|
  {
    hide FlagHonest, StartsLoaded, Undone;
    if calls != [] {
      UndoneStarts(w, h, calls[0].action, calls[0].receipt);
      RollbackHonest(w, h, calls[0].action, calls[0].receipt);
      UnwoundStarts(w, Undone(w, h, calls[0].action, calls[0].receipt).0, calls[1..]);
    }
  }

  /** On a live host no start at all, forward or restoring, ever runs a loaded unit that
      differs from the unit on disk. */
  lemma EveryStartRunsTheDisk(w: World, h: Host, actions: seq<Action>, rollbackOnFailure: bool)
    requires Valid(w) && h.live && h.restartSafe && h.loaded == h.unit && h.starts == []
    ensures forall n :: n in Outcome(DriverOf(w), h, actions, rollbackOnFailure).target.starts ==> n.loaded == n.unit
  {
    ForwardStaysSafe(w, h, actions);
    var pass := Forward(DriverOf(w), h, actions);
    UnwoundStarts(w, pass.target, Undos(pass.done));
  }
}
