/** What a plan leaves alone on the host: the execution files of a Worker that no reviewed and
    matching reconciliation may rewrite, and a migrated Worker altogether. */
module SystemdGuards {
  import opened Contracts
  import opened SetupApply
  import opened Systemd
  import opened SystemdMigration
  import opened SystemdFiles
  import UnitMigration

  // ----------------------------------------------------------------- execution files

  predicate SameExecution(h: Host, g: Host) {
    g.toml == h.toml && g.unit == h.unit && g.loaded == h.loaded
  }

  /** A reconciliation that may rewrite the execution files: it is the reviewed one, and the
      Worker runs smoke, or a runtime whose provider and manifest are the planned ones. */
  predicate Permitted(w: World, g: Host, a: Action) {
    && a.kind.ReconcileWorker? && w.reviewed(a) && Contract(w, g).Some?
    && (!Contract(w, g).value || (w.providerMatches(g, a) && w.manifestMatches(g, a)))
  }

  /** No action may rewrite the execution files while they are those of `h`. */
  ghost predicate Forbidden(w: World, h: Host, actions: seq<Action>) {
    forall a, g :: a in actions && SameExecution(h, g) ==> !Permitted(w, g, a)
  }

  lemma ForbiddenIsBlocked(w: World, g: Host, a: Action)
    requires a.kind.ReconcileWorker? && !Permitted(w, g, a)
    ensures InspectReconcile(w, g, a).Blocked?
  {
    hide UnitMigration.Parse, UnitMigration.Render;
  }

  lemma InspectedReconcile(w: World, g: Host, a: Action)
    requires a.kind.ReconcileWorker?
    ensures DriverOf(w).inspect(g, a) == (g, Some(InspectReconcile(w, g, a)))
  {
    DriverHandles(w, g, a);
    hide InspectReconcile, InspectStop, InspectRender, DriverOf;
  }

  lemma StepKeepsExecution(w: World, g: Host, a: Action)
    requires !a.kind.ReconcileWorker?
    ensures var seen := DriverOf(w).inspect(g, a).0;
            SameExecution(g, seen) && SameExecution(g, DriverOf(w).apply(seen, a).0)
  {
    hide DriverOf, InspectStop, InspectReconcile, InspectRender, ApplyReconcile, ApplyRender;
    DriverCalls(w, g, a);
    if a.kind.RenderConfig? { AsideApplies(w, g, a); }
  }

  predicate NoReconciled(done: seq<Done<Undo>>) {
    forall item :: item in done ==> !item.action.kind.ReconcileWorker?
  }

  lemma {:induction false} PassKeepsExecution(w: World, h: Host, g: Host, actions: seq<Action>)
    requires Forbidden(w, h, actions) && SameExecution(h, g)
    ensures var pass := Forward(DriverOf(w), g, actions); SameExecution(h, pass.target) && NoReconciled(pass.done)
    decreases |actions|
  {
    hide DriverOf, Permitted;
    if actions != [] {
      var a, d := actions[0], DriverOf(w);
      var (seen, inspection) := d.inspect(g, a);
      assert a in actions && forall b :: b in actions[1..] ==> b in actions;
      if a.kind.ReconcileWorker? {
        ForbiddenIsBlocked(w, g, a);
        InspectedReconcile(w, g, a);
      } else {
        StepKeepsExecution(w, g, a);
        PassKeepsExecution(w, h, seen, actions[1..]);
        PassKeepsExecution(w, h, d.apply(seen, a).0, actions[1..]);
      }
    }
  }

  lemma UndoneKeepsExecution(w: World, x: Host, a: Action, r: Receipt<Undo>)
    requires !a.kind.ReconcileWorker?
    ensures SameExecution(x, Undone(w, x, a, r).0)
  {
    hide RestoreAll, Contract;
    if a.kind.RenderConfig? { AsideUndone(w, x, a, r); }
  }

  lemma {:induction false} UnwoundKeepsExecution(w: World, x: Host, calls: seq<Done<Undo>>)
    requires NoReconciled(calls)
    ensures SameExecution(x, Unwound(DriverOf(w), x, calls))
    decreases |calls|
  {
    hide DriverOf, Undone;
    if calls != [] {
      assert calls[0] in calls && forall item :: item in calls[1..] ==> item in calls;
      DriverUndoes(w, x, calls[0].action, calls[0].receipt);
      UndoneKeepsExecution(w, x, calls[0].action, calls[0].receipt);
      UnwoundKeepsExecution(w, Undone(w, x, calls[0].action, calls[0].receipt).0, calls[1..]);
    }
  }

  lemma {:induction false} UndosFrom<R>(done: seq<Done<R>>)
    ensures forall item :: item in Undos(done) ==> item in done
    decreases |done|
  {
    if done != [] { UndosFrom(done[..|done| - 1]); }
  }

  /** The Worker's config, unit and loaded unit change only through a reviewed reconciliation of
      a smoke Worker, or of a runtime whose provider and manifest are the planned ones: without
      one no plan, whatever fails in it and however it is rolled back, touches them. */
  lemma OnlyPermittedRewrites(w: World, h: Host, actions: seq<Action>, rollbackOnFailure: bool)
    requires Forbidden(w, h, actions)
    ensures SameExecution(h, Outcome(DriverOf(w), h, actions, rollbackOnFailure).target)
  {
    hide DriverOf, Forbidden;
    var pass := Forward(DriverOf(w), h, actions);
    PassKeepsExecution(w, h, h, actions);
    UndosFrom(pass.done);
    UnwoundKeepsExecution(w, pass.target, Undos(pass.done));
  }

  // ----------------------------------------------------------------- a migrated Worker

  /** The Worker runs its service in runtime mode from a unit that has the driver bridge. */
  predicate Migrated(w: World, h: Host) {
    && h.live && h.active && Contract(w, h) == Some(true)
    && UnitMigration.Parse(w.template, h.unit).value.bridge
  }

  /** What a migration plan consists of: renderings belong to the migration, and nothing stops
      or releases the runtime on its own. */
  predicate MigrationKinds(w: World, actions: seq<Action>) {
    forall a :: a in actions ==>
      !a.kind.RuntimeStop? && !a.kind.RuntimeRelease? && (a.kind.RenderConfig? ==> w.migrates(a))
  }

  /** Everything but what other drivers look after. */
  predicate LeftAlone(h: Host, g: Host) {
    g == h.(rest := g.rest)
  }

  lemma ContractReads(w: World, h: Host, rest: Opaque)
    ensures Contract(w, h.(rest := rest)) == Contract(w, h)
  {
    hide UnitMigration.Parse;
  }

  /** The patch of a migrated unit is the unit. */
  lemma MigratedRendersItself(w: World, h: Host)
    requires Valid(w) && Migrated(w, h) && UnitMigration.Render(w.template, h.unit).Some?
    ensures UnitMigration.Render(w.template, h.unit).value == h.unit
  {
    UnitMigration.RenderIsRecordUpdate(w.template, h.unit);
    assert UnitMigration.Parse(w.template, h.unit).value.runtime by { hide UnitMigration.Parse, UnitMigration.Render; }
    hide UnitMigration.Parse, UnitMigration.Render, UnitMigration.Print;
    var u := UnitMigration.Parse(w.template, h.unit).value;
    assert u == u.(runtime := true, bridge := true);
  }

  lemma MigratedReconcile(w: World, h: Host, g: Host, a: Action)
    requires Valid(w) && Migrated(w, h) && LeftAlone(h, g)
    ensures !InspectReconcile(w, g, a).NeedsApply?
  {
    ContractReads(w, h, g.rest);
    if UnitMigration.Render(w.template, h.unit).Some? { MigratedRendersItself(w, h); }
    hide UnitMigration.Parse, UnitMigration.Render, Contract;
  }

  lemma MigratedStop(w: World, h: Host, g: Host, a: Action)
    requires Migrated(w, h) && LeftAlone(h, g)
    ensures !InspectStop(w, g, a).NeedsApply?
  {
    ContractReads(w, h, g.rest);
    hide UnitMigration.Parse, Contract;
  }

  lemma MigratedRender(w: World, h: Host, g: Host, a: Action)
    requires Migrated(w, h) && LeftAlone(h, g) && w.migrates(a)
    ensures !InspectRender(w, g, a).NeedsApply?
  {
    ContractReads(w, h, g.rest);
    hide UnitMigration.Parse, Contract, AllInstalled;
  }

  /** No action of a migration needs to be applied to a Worker that is migrated. */
  lemma MigratedNeedsNothing(w: World, h: Host, g: Host, a: Action)
    requires Valid(w) && Migrated(w, h) && LeftAlone(h, g) && HandledHere(a.kind)
    requires !a.kind.RuntimeStop? && !a.kind.RuntimeRelease? && (a.kind.RenderConfig? ==> w.migrates(a))
    ensures DriverOf(w).inspect(g, a).0 == g && DriverOf(w).inspect(g, a).1 != Some(NeedsApply)
  {
    assert h.live && h.active;
    hide UnitMigration.Parse, UnitMigration.Render, Contract, InspectReconcile, InspectStop, InspectRender, Migrated, DriverOf;
    DriverHandles(w, g, a);
    if a.kind.WorkerStop? { MigratedStop(w, h, g, a); }
    else if a.kind.ReconcileWorker? { MigratedReconcile(w, h, g, a); }
    else if a.kind.RenderConfig? { MigratedRender(w, h, g, a); }
  }

  lemma OthersLeaveAlone(w: World, h: Host, g: Host, a: Action)
    requires LeftAlone(h, g) && !HandledHere(a.kind)
    ensures var seen := DriverOf(w).inspect(g, a).0;
            LeftAlone(h, seen) && LeftAlone(h, DriverOf(w).apply(seen, a).0)
  {
    hide ApplyStop, ApplyReconcile, ApplyRender, ApplyRelease, StartService, Inspect;
  }

  predicate OnlyOthers(done: seq<Done<Undo>>) {
    forall item :: item in done ==> !HandledHere(item.action.kind)
  }

  lemma {:induction false} PassLeavesAlone(w: World, h: Host, g: Host, actions: seq<Action>)
    requires Valid(w) && Migrated(w, h) && LeftAlone(h, g) && MigrationKinds(w, actions)
    ensures var pass := Forward(DriverOf(w), g, actions); LeftAlone(h, pass.target) && OnlyOthers(pass.done)
    decreases |actions|
  {
    hide DriverOf, Valid, Migrated, LeftAlone;
    if actions != [] {
      var a, d := actions[0], DriverOf(w);
      var (seen, inspection) := d.inspect(g, a);
      assert a in actions && forall b :: b in actions[1..] ==> b in actions;
      if HandledHere(a.kind) {
        MigratedNeedsNothing(w, h, g, a);
        PassLeavesAlone(w, h, g, actions[1..]);
      } else {
        OthersLeaveAlone(w, h, g, a);
        PassLeavesAlone(w, h, seen, actions[1..]);
        PassLeavesAlone(w, h, d.apply(seen, a).0, actions[1..]);
      }
    }
  }

  lemma {:induction false} UnwoundLeavesAlone(w: World, h: Host, x: Host, calls: seq<Done<Undo>>)
    requires LeftAlone(h, x) && OnlyOthers(calls)
    ensures LeftAlone(h, Unwound(DriverOf(w), x, calls))
    decreases |calls|
  {
    hide DriverOf, RollbackReconcile, RollbackStop, RestoreAll;
    if calls != [] {
      assert calls[0] in calls && forall item :: item in calls[1..] ==> item in calls;
      DriverUndoes(w, x, calls[0].action, calls[0].receipt);
      UnwoundLeavesAlone(w, h, Undone(w, x, calls[0].action, calls[0].receipt).0, calls[1..]);
    }
  }

  /** Migrating a Worker that is already migrated and running leaves it alone, whatever the plan
      asks for, whatever fails and however it is rolled back: its files, units and service are
      what they were, it is neither stopped nor started, and no fallible call is made. */
  lemma MigratedIsLeftAlone(w: World, h: Host, actions: seq<Action>, rollbackOnFailure: bool)
    requires Valid(w) && Migrated(w, h) && MigrationKinds(w, actions)
    ensures var t := Outcome(DriverOf(w), h, actions, rollbackOnFailure).target; t == h.(rest := t.rest)
  {
    hide DriverOf, Valid, Migrated;
    var pass := Forward(DriverOf(w), h, actions);
    PassLeavesAlone(w, h, h, actions);
    UndosFrom(pass.done);
    UnwoundLeavesAlone(w, h, pass.target, Undos(pass.done));
  }
}
