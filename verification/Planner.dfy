/** The activation plan: actions are appended to one list and numbered by its length. */
module Planner {
  import opened Contracts
  import opened SetupApply

  datatype Preparation = ReferenceOnly | Download | Convert

  /** A provider's setup intent together with the facts of the host it is planned for. */
  datatype Intent = Intent(
    packages: seq<string>, configuration: Option<Opaque>, preparation: Preparation, model: Opaque,
    requiresPrivilege: bool, systemd: bool, gpuCount: int, reconcileWorker: bool)

  // --------------------------------------------------------------------- numbering

  function Digits(n: nat): string {
    if n < 10 then [DIGITS[n]] else Digits(n / 10) + [DIGITS[n % 10]]
  }

  const DIGITS := "0123456789"

  function Slug(k: Kind): string {
    match k
    case EnsureDirectory => "ensure-directory"
    case EnsurePackage => "ensure-package"
    case EnsureDriverBridge => "ensure-nvidia-driver-bridge"
    case RenderConfig => "render-config"
    case VerifyModel => "verify-model-reference"
    case DownloadModel => "download-model"
    case ConvertModel => "convert-model"
    case Preflight => "preflight"
    case WorkerStop => "worker-stop"
    case ReconcileWorker => "reconcile-worker-execution"
    case RuntimeStart => "runtime-start"
    case HealthCheck => "health-check"
    case RuntimeStop => "runtime-stop"
    case RuntimeRelease => "runtime-release"
  }

  /** Two digits at least, then the kind. */
  function Number(n: nat): string {
    if n < 10 then ['0'] + Digits(n) else Digits(n)
  }

  function Id(n: nat, k: Kind): string {
    Number(n) + ['-'] + Slug(k)
  }

  function DigitValue(c: char): int { c as int - '0' as int }

  function Value(s: string): int {
    if s == "" then 0 else Value(s[..|s| - 1]) * 10 + DigitValue(s[|s| - 1])
  }

  lemma DigitAt(d: nat)
    requires d < 10
    ensures DigitValue(DIGITS[d]) == d && DIGITS[d] != '-'
  {
    assert DIGITS == ['0', '1', '2', '3', '4', '5', '6', '7', '8', '9'];
  }

  lemma {:induction false} DigitsRoundTrip(n: nat)
    ensures Value(Digits(n)) == n && '-' !in Digits(n)
  {
    hide DIGITS;
    DigitAt(n % 10);
    if n < 10 {
      assert Digits(n)[..0] == "";
      assert Value("") == 0;
    } else {
      DigitsRoundTrip(n / 10);
      assert Digits(n)[..|Digits(n)| - 1] == Digits(n / 10);
    }
  }

  lemma NumberRoundTrip(n: nat)
    ensures Value(Number(n)) == n && '-' !in Number(n)
  {
    DigitsRoundTrip(n);
    if n < 10 {
      assert (['0'] + Digits(n))[..1] == ['0'] && ['0'][..0] == "";
      assert Value("") == 0;
      assert Value(['0']) == 0;
    }
  }

  lemma SameHead(a: string, b: string, x: string, y: string)
    requires '-' !in a && '-' !in b && a + ['-'] + x == b + ['-'] + y
    ensures a == b
  {
    var s := a + ['-'] + x;
    assert s[|a|] == '-' && s[|b|] == '-';
    assert forall i :: 0 <= i < |a| ==> s[i] == a[i];
    assert forall i :: 0 <= i < |b| ==> s[i] == b[i];
    assert s[..|a|] == a && s[..|b|] == b;
  }

  /** The number of an action can be read off its identity. */
  lemma IdsDiffer(m: nat, n: nat, k: Kind, l: Kind)
    requires m != n
    ensures Id(m, k) != Id(n, l)
  {
    hide Slug;
    NumberRoundTrip(m);
    NumberRoundTrip(n);
    if Id(m, k) == Id(n, l) { SameHead(Number(m), Number(n), Slug(k), Slug(l)); }
  }

  class ActionBuilder {
    var actions: seq<Action>

    constructor ()
      ensures actions == []
    {
      actions := [];
    }

    /** Appends one action whose number is the new length of the list. */
    method Add(kind: Kind, payload: Opaque, privilege: bool, network: bool, confirmation: bool, reversible: bool)
      modifies this
      ensures actions == old(actions)
                + [Action(Id(|old(actions)| + 1, kind), kind, payload, privilege, network, confirmation, reversible)]
    {
      var index := |actions| + 1;
      actions := actions + [Action(Id(index, kind), kind, payload, privilege, network, confirmation, reversible)];
    }
  }

  // -------------------------------------------------------------------------- plans

  predicate Numbered(actions: seq<Action>) {
    forall i :: 0 <= i < |actions| ==> actions[i].id == Id(i + 1, actions[i].kind)
  }

  /** The kinds the activation plan marks as reversible. */
  predicate PlannedReversible(k: Kind) {
    k.EnsureDriverBridge? || k.RenderConfig? || k.WorkerStop? || k.ReconcileWorker? || k.RuntimeStart?
  }

  predicate WellMarked(actions: seq<Action>) {
    Numbered(actions) && forall i :: 0 <= i < |actions| ==> (actions[i].reversible <==> PlannedReversible(actions[i].kind))
  }

  /** The kinds that need privileges: always, or when the provider asks for them. */
  predicate PlannedPrivilege(intent: Intent, k: Kind) {
    k.EnsureDriverBridge? || k.WorkerStop? || k.ReconcileWorker?
    || (intent.requiresPrivilege && (k.EnsureDirectory? || k.EnsurePackage? || k.RenderConfig? || k.RuntimeStart?))
  }

  predicate PlannedNetwork(k: Kind) {
    k.EnsurePackage? || k.DownloadModel?
  }

  predicate PlannedConfirmation(k: Kind) {
    k.DownloadModel? || k.ConvertModel?
  }

  /** Every action asks for what its kind needs. */
  predicate Flagged(intent: Intent, actions: seq<Action>) {
    forall i :: 0 <= i < |actions| ==> FlaggedOne(intent, actions[i])
  }

  predicate FlaggedOne(intent: Intent, a: Action) {
    && (a.requiresPrivilege <==> PlannedPrivilege(intent, a.kind))
    && (a.requiresNetwork <==> PlannedNetwork(a.kind))
    && (a.requiresConfirmation <==> PlannedConfirmation(a.kind))
  }

  function KindsOf(actions: seq<Action>): seq<Kind> {
    seq(|actions|, i requires 0 <= i < |actions| => actions[i].kind)
  }

  /** What each action is about: a directory, a package, a configuration, a model. */
  function Payloads(actions: seq<Action>): seq<Opaque> {
    seq(|actions|, i requires 0 <= i < |actions| => actions[i].payload)
  }

  function Repeat(k: Kind, n: nat): seq<Kind> {
    seq(n, _ => k)
  }

  function PreparationKind(p: Preparation): Kind {
    match p
    case ReferenceOnly => VerifyModel
    case Download => DownloadModel
    case Convert => ConvertModel
  }

  /** What precedes the migration of an installed Worker. */
  function Preamble(intent: Intent): seq<Kind> {
    Repeat(EnsureDirectory, 3) + Repeat(EnsurePackage, |intent.packages|)
    + (if intent.systemd && intent.gpuCount > 0 then [EnsureDriverBridge] else [])
    + (if intent.configuration.Some? then [RenderConfig] else [])
    + [PreparationKind(intent.preparation)]
  }

  function ConfigurationPayloads(intent: Intent): seq<Opaque> {
    (if intent.systemd && intent.gpuCount > 0 then ["libcuda.so.1"] else [])
    + (if intent.configuration.Some? then [intent.configuration.value] else [])
    + [intent.model]
  }

  /** The packages are named in the order the intent lists them, which is sorted. */
  function PlannedPayloads(intent: Intent): seq<Opaque> {
    ["config", "state", "cache"] + intent.packages + ConfigurationPayloads(intent)
    + (if intent.reconcileWorker then ["runtime", "runtime"] else [])
    + ["", "", ""]
  }

  function PlannedKinds(intent: Intent): seq<Kind> {
    Preamble(intent)
    + (if intent.reconcileWorker then [WorkerStop, ReconcileWorker] else [])
    + [Preflight, RuntimeStart, HealthCheck]
  }

  lemma AddKeeps(intent: Intent, actions: seq<Action>, a: Action)
    requires WellMarked(actions) && Flagged(intent, actions)
    requires a.id == Id(|actions| + 1, a.kind) && (a.reversible <==> PlannedReversible(a.kind)) && FlaggedOne(intent, a)
    ensures WellMarked(actions + [a]) && Flagged(intent, actions + [a])
    ensures KindsOf(actions + [a]) == KindsOf(actions) + [a.kind]
    ensures Payloads(actions + [a]) == Payloads(actions) + [a.payload]
  {
    hide Id;
  }

  /** Appends one well-marked action. */
  method AddMarked(builder: ActionBuilder, ghost intent: Intent, kind: Kind, payload: Opaque,
                   privilege: bool, network: bool, confirmation: bool)
    requires WellMarked(builder.actions) && Flagged(intent, builder.actions)
    requires privilege <==> PlannedPrivilege(intent, kind)
    requires (network <==> PlannedNetwork(kind)) && (confirmation <==> PlannedConfirmation(kind))
    modifies builder
    ensures WellMarked(builder.actions) && Flagged(intent, builder.actions)
    ensures KindsOf(builder.actions) == old(KindsOf(builder.actions)) + [kind]
    ensures Payloads(builder.actions) == old(Payloads(builder.actions)) + [payload]
  {
    hide Id, WellMarked, Flagged, KindsOf, Payloads;
    ghost var before := builder.actions;
    builder.Add(kind, payload, privilege, network, confirmation, PlannedReversible(kind));
    AddKeeps(intent, before, builder.actions[|before|]);
  }

  /** The three directories, then one action for each package. */
  method AddInstallation(builder: ActionBuilder, intent: Intent)
    requires builder.actions == []
    modifies builder
    ensures WellMarked(builder.actions) && Flagged(intent, builder.actions)
    ensures KindsOf(builder.actions) == Repeat(EnsureDirectory, 3) + Repeat(EnsurePackage, |intent.packages|)
    ensures Payloads(builder.actions) == ["config", "state", "cache"] + intent.packages
  {
    hide WellMarked, Flagged, KindsOf, Payloads;
    EmptyPlan(intent);
    AddMarked(builder, intent, EnsureDirectory, "config", intent.requiresPrivilege, false, false);
    AddMarked(builder, intent, EnsureDirectory, "state", intent.requiresPrivilege, false, false);
    AddMarked(builder, intent, EnsureDirectory, "cache", intent.requiresPrivilege, false, false);
    assert KindsOf(builder.actions) == Repeat(EnsureDirectory, 3) + Repeat(EnsurePackage, 0);
    var i := 0;
    while i < |intent.packages|
      invariant 0 <= i <= |intent.packages|
      invariant WellMarked(builder.actions) && Flagged(intent, builder.actions)
      invariant KindsOf(builder.actions) == Repeat(EnsureDirectory, 3) + Repeat(EnsurePackage, i)
      invariant Payloads(builder.actions) == ["config", "state", "cache"] + intent.packages[..i]
    {
      AddMarked(builder, intent, EnsurePackage, intent.packages[i], intent.requiresPrivilege, true, false);
      i := i + 1;
    }
  }

  /** Driver bridge, configuration and model, where the intent calls for them. */
  method AddConfiguration(builder: ActionBuilder, intent: Intent)
    requires WellMarked(builder.actions) && Flagged(intent, builder.actions)
    requires KindsOf(builder.actions) == Repeat(EnsureDirectory, 3) + Repeat(EnsurePackage, |intent.packages|)
    modifies builder
    ensures WellMarked(builder.actions) && Flagged(intent, builder.actions)
    ensures KindsOf(builder.actions) == Preamble(intent)
    ensures Payloads(builder.actions) == old(Payloads(builder.actions)) + ConfigurationPayloads(intent)
  {
    hide WellMarked, Flagged, KindsOf, Payloads, Repeat;
    if intent.systemd && intent.gpuCount > 0 {
      AddMarked(builder, intent, EnsureDriverBridge, "libcuda.so.1", true, false, false);
    }
    if intent.configuration.Some? {
      AddMarked(builder, intent, RenderConfig, intent.configuration.value, intent.requiresPrivilege, false, false);
    }
    AddMarked(builder, intent, PreparationKind(intent.preparation), intent.model, false,
              intent.preparation.Download?, !intent.preparation.ReferenceOnly?);
  }

  /** The activation plan, or `None` for a Worker migration outside systemd. */
  method BuildSetupPlan(intent: Intent) returns (plan: Option<seq<Action>>)
    ensures plan.None? <==> intent.reconcileWorker && !intent.systemd
    ensures plan.Some? ==>
              WellMarked(plan.value) && Flagged(intent, plan.value) && KindsOf(plan.value) == PlannedKinds(intent)
    ensures plan.Some? ==> Payloads(plan.value) == PlannedPayloads(intent)
  {
    hide WellMarked, Flagged, KindsOf, Payloads, Preamble;
    var builder := new ActionBuilder();
    AddInstallation(builder, intent);
    AddConfiguration(builder, intent);
    if intent.reconcileWorker {
      if !intent.systemd { return None; }
      AddMarked(builder, intent, WorkerStop, "runtime", true, false, false);
      AddMarked(builder, intent, ReconcileWorker, "runtime", true, false, false);
    }
    AddMarked(builder, intent, Preflight, "", false, false, false);
    AddMarked(builder, intent, RuntimeStart, "", intent.requiresPrivilege, false, false);
    AddMarked(builder, intent, HealthCheck, "", false, false, false);
    return Some(builder.actions);
  }

  lemma EmptyPlan(intent: Intent)
    ensures WellMarked([]) && Flagged(intent, []) && KindsOf([]) == [] && Payloads([]) == []
  {
  }

  /** What an approval of the plan has to allow, read off the intent. */
  predicate Grants(intent: Intent, approval: Approval) {
    && (intent.requiresPrivilege || (intent.systemd && intent.gpuCount > 0) || intent.reconcileWorker ==> approval.allowPrivileged)
    && (intent.packages != [] || intent.preparation.Download? ==> approval.allowNetwork)
    && (!intent.preparation.ReferenceOnly? ==> approval.allowConfirmation)
    && (intent.preparation.Download? ==> approval.allowDownload)
    && (intent.preparation.Convert? ==> approval.allowConvert)
  }

  predicate Planned(intent: Intent, k: Kind) {
    match k
    case EnsureDirectory => true
    case EnsurePackage => intent.packages != []
    case EnsureDriverBridge => intent.systemd && intent.gpuCount > 0
    case RenderConfig => intent.configuration.Some?
    case VerifyModel => intent.preparation.ReferenceOnly?
    case DownloadModel => intent.preparation.Download?
    case ConvertModel => intent.preparation.Convert?
    case WorkerStop => intent.reconcileWorker
    case ReconcileWorker => intent.reconcileWorker
    case RuntimeStop => false
    case RuntimeRelease => false
    case _ => true
  }

  lemma RepeatHas(k: Kind, l: Kind, n: nat)
    ensures l in Repeat(k, n) <==> l == k && n > 0
  {
    if n > 0 { assert Repeat(k, n)[0] == k; }
  }

  lemma KindsPlanned(intent: Intent, k: Kind)
    ensures k in PlannedKinds(intent) <==> Planned(intent, k)
  {
    RepeatHas(EnsureDirectory, k, 3);
    RepeatHas(EnsurePackage, k, |intent.packages|);
    hide Repeat;
  }

  lemma PlanHas(intent: Intent, actions: seq<Action>, k: Kind) returns (i: nat)
    requires KindsOf(actions) == PlannedKinds(intent) && Planned(intent, k)
    ensures i < |actions| && actions[i].kind == k
  {
    KindsPlanned(intent, k);
    hide PlannedKinds;
    i :| 0 <= i < |KindsOf(actions)| && KindsOf(actions)[i] == k;
  }

  /** An approval covers the built plan exactly when it names its digest and allows what
      the intent and the host call for. */
  lemma ApprovalNeeded(intent: Intent, plan: Plan, approval: Approval)
    requires Flagged(intent, plan.actions) && KindsOf(plan.actions) == PlannedKinds(intent)
    ensures Approves(approval, plan) <==> approval.planDigest == plan.digest && Grants(intent, approval)
  {
    hide KindsOf, PlannedKinds;
    if Approves(approval, plan) { ApprovalGrants(intent, plan, approval); }
    if approval.planDigest == plan.digest && Grants(intent, approval) {
      forall a | a in plan.actions ensures FlaggedOne(intent, a) && Planned(intent, a.kind) {
        var i :| 0 <= i < |plan.actions| && plan.actions[i] == a;
        PlanOnlyHas(intent, plan.actions, i);
      }
    }
  }

  lemma PlanOnlyHas(intent: Intent, actions: seq<Action>, i: nat)
    requires KindsOf(actions) == PlannedKinds(intent) && i < |actions|
    ensures Planned(intent, actions[i].kind)
  {
    KindsPlanned(intent, actions[i].kind);
    hide PlannedKinds;
    assert KindsOf(actions)[i] == actions[i].kind;
  }

  lemma ApprovalGrants(intent: Intent, plan: Plan, approval: Approval)
    requires Flagged(intent, plan.actions) && KindsOf(plan.actions) == PlannedKinds(intent)
    requires Approves(approval, plan)
    ensures Grants(intent, approval)
  {
    hide KindsOf, PlannedKinds;
    var directory := PlanHas(intent, plan.actions, EnsureDirectory);
    assert FlaggedOne(intent, plan.actions[directory]);
    if intent.systemd && intent.gpuCount > 0 {
      var bridge := PlanHas(intent, plan.actions, EnsureDriverBridge);
      assert FlaggedOne(intent, plan.actions[bridge]);
    }
    if intent.reconcileWorker {
      var stop := PlanHas(intent, plan.actions, WorkerStop);
      assert FlaggedOne(intent, plan.actions[stop]);
    }
    if intent.packages != [] {
      var package := PlanHas(intent, plan.actions, EnsurePackage);
      assert FlaggedOne(intent, plan.actions[package]);
    }
    var model := PlanHas(intent, plan.actions, PreparationKind(intent.preparation));
    assert FlaggedOne(intent, plan.actions[model]);
  }

  /** What a built plan may do under an approval: without privileges it leaves the Worker and the
      driver bridge alone, and a provider that asks for them gets nothing installed, rendered or
      started; without network nothing is fetched; without confirmation no model is prepared. */
  lemma ApprovalLimits(intent: Intent, plan: Plan, approval: Approval, a: Action)
    requires Flagged(intent, plan.actions) && Approves(approval, plan) && a in plan.actions
    ensures !approval.allowPrivileged ==>
              && !a.kind.WorkerStop? && !a.kind.ReconcileWorker? && !a.kind.EnsureDriverBridge?
              && (intent.requiresPrivilege ==>
                    !a.kind.EnsureDirectory? && !a.kind.EnsurePackage? && !a.kind.RenderConfig? && !a.kind.RuntimeStart?)
    ensures !approval.allowNetwork ==> !a.kind.EnsurePackage? && !a.kind.DownloadModel?
    ensures !approval.allowConfirmation ==> !a.kind.DownloadModel? && !a.kind.ConvertModel?
    ensures (!approval.allowDownload ==> !a.kind.DownloadModel?) && (!approval.allowConvert ==> !a.kind.ConvertModel?)
  {
    var i :| 0 <= i < |plan.actions| && plan.actions[i] == a;
    assert FlaggedOne(intent, plan.actions[i]);
  }

  /** Exactly the driver bridge, the rendering, the stop, the reconciliation and the start of a
      built plan can be undone. */
  lemma ReversibleKinds(actions: seq<Action>, a: Action)
    requires WellMarked(actions) && a in actions
    ensures a.reversible <==>
              a.kind in {EnsureDriverBridge, RenderConfig, WorkerStop, ReconcileWorker, RuntimeStart}
  {
    hide Id;
    var i :| 0 <= i < |actions| && actions[i] == a;
  }

  lemma DistinctIds(actions: seq<Action>)
    requires Numbered(actions)
    ensures forall i, j :: 0 <= i < j < |actions| ==> actions[i].id != actions[j].id
  {
    hide Id;
    forall i, j | 0 <= i < j < |actions| ensures actions[i].id != actions[j].id {
      IdsDiffer(i + 1, j + 1, actions[i].kind, actions[j].kind);
    }
  }

  predicate OnlyAt(kinds: seq<Kind>, k: Kind, i: nat) {
    i < |kinds| && kinds[i] == k && forall j :: 0 <= j < |kinds| && j != i ==> kinds[j] != k
  }

  lemma PreambleIsAside(intent: Intent)
    ensures forall j :: 0 <= j < |Preamble(intent)| ==>
              var k := Preamble(intent)[j];
              !k.WorkerStop? && !k.ReconcileWorker? && !k.RuntimeStart? && !k.RuntimeStop? && !k.RuntimeRelease?
              && !k.Preflight? && !k.HealthCheck?
  {
  }

  /** A migration stops the Worker, reconciles it, checks, and only then starts the runtime,
      each exactly once and after every file was rendered; so a rollback stops the runtime
      first, restores the execution files next and restarts the Worker after that. */
  lemma MigrationOrder(intent: Intent) returns (stop: nat)
    requires intent.reconcileWorker
    ensures var kinds := PlannedKinds(intent);
            && stop == |Preamble(intent)|
            && OnlyAt(kinds, WorkerStop, stop) && OnlyAt(kinds, ReconcileWorker, stop + 1)
            && OnlyAt(kinds, Preflight, stop + 2) && OnlyAt(kinds, RuntimeStart, stop + 3)
            && OnlyAt(kinds, HealthCheck, stop + 4) && |kinds| == stop + 5
            && (forall j :: 0 <= j < |kinds| && kinds[j].RenderConfig? ==> j < stop)
  {
    stop := |Preamble(intent)|;
    PreambleIsAside(intent);
    hide Preamble;
    var kinds := PlannedKinds(intent);
    assert kinds == Preamble(intent) + [WorkerStop, ReconcileWorker, Preflight, RuntimeStart, HealthCheck];
    assert forall j :: 0 <= j < stop ==> kinds[j] == Preamble(intent)[j];
  }

  /** The place of a kind in an activation. */
  function Rank(k: Kind): nat {
    match k
    case EnsureDirectory => 0
    case EnsurePackage => 1
    case EnsureDriverBridge => 2
    case RenderConfig => 3
    case VerifyModel => 4
    case DownloadModel => 4
    case ConvertModel => 4
    case WorkerStop => 5
    case ReconcileWorker => 6
    case Preflight => 7
    case RuntimeStart => 8
    case HealthCheck => 9
    case _ => 10
  }

  function Finish(intent: Intent): seq<Kind> {
    if intent.reconcileWorker then [WorkerStop, ReconcileWorker, Preflight, RuntimeStart, HealthCheck]
    else [Preflight, RuntimeStart, HealthCheck]
  }

  lemma FinishRises(intent: Intent)
    ensures forall i :: 0 <= i < |Finish(intent)| ==> Rank(Finish(intent)[i]) >= 5
    ensures forall i, j :: 0 <= i < j < |Finish(intent)| ==> Rank(Finish(intent)[i]) < Rank(Finish(intent)[j])
  {
  }

  lemma PreambleRises(intent: Intent)
    ensures var p := Preamble(intent);
            && (forall i :: 0 <= i < |p| ==> Rank(p[i]) <= 4)
            && (forall i, j :: 0 <= i < j < |p| ==> Rank(p[i]) < Rank(p[j]) || (p[i] == p[j] && Rank(p[i]) <= 1))
  {
  }

  /** Whatever the intent, a plan goes through its kinds in one order: directories, packages,
      driver bridge, configuration, model, the Worker to migrate, and at the end the checks,
      the start and the check of its health; only directories and packages come repeatedly. */
  lemma ActivationOrder(intent: Intent)
    ensures var kinds := PlannedKinds(intent); var n := |kinds|;
            && n >= 3 && kinds[n - 3..] == [Preflight, RuntimeStart, HealthCheck]
            && (forall i, j :: 0 <= i < j < n ==> Rank(kinds[i]) < Rank(kinds[j]) || (kinds[i] == kinds[j] && Rank(kinds[i]) <= 1))
  {
    PreambleRises(intent);
    FinishRises(intent);
    var kinds, p, f := PlannedKinds(intent), Preamble(intent), Finish(intent);
    hide Preamble, Rank;
    assert kinds == p + f;
    forall i, j | 0 <= i < j < |kinds|
      ensures Rank(kinds[i]) < Rank(kinds[j]) || (kinds[i] == kinds[j] && Rank(kinds[i]) <= 1)
    {
      assert kinds[i] == if i < |p| then p[i] else f[i - |p|];
      assert kinds[j] == if j < |p| then p[j] else f[j - |p|];
    }
  }

  /** The start is the last action but one, comes once, and no Worker is stopped after it. */
  lemma StartComesLate(intent: Intent)
    ensures var kinds := PlannedKinds(intent);
            |kinds| >= 3 && OnlyAt(kinds, RuntimeStart, |kinds| - 2) && kinds[|kinds| - 1].HealthCheck?
            && forall j :: |kinds| - 2 <= j < |kinds| ==> !kinds[j].WorkerStop?
  {
    ActivationOrder(intent);
    hide PlannedKinds;
    var kinds := PlannedKinds(intent);
    var n := |kinds|;
    assert kinds[n - 2] == kinds[n - 3..][1] && kinds[n - 1] == kinds[n - 3..][2];
    assert forall j :: 0 <= j < n - 2 ==> Rank(kinds[j]) < Rank(kinds[n - 2]) || Rank(kinds[j]) <= 1;
    assert forall j :: 0 <= j < n - 2 ==> kinds[j] != RuntimeStart;
  }

  predicate DistinctActions(actions: seq<Action>) {
    forall i, j :: 0 <= i < j < |actions| ==> actions[i].id != actions[j].id
  }

  predicate DistinctDone<R>(done: seq<Done<R>>) {
    forall i, j :: 0 <= i < j < |done| ==> done[i].action.id != done[j].action.id
  }

  predicate From<R>(done: seq<Done<R>>, actions: seq<Action>) {
    forall i :: 0 <= i < |done| ==> done[i].action in actions
  }

  lemma DistinctOnward<R>(actions: seq<Action>, first: seq<Done<R>>, rest: seq<Done<R>>)
    requires actions != [] && DistinctActions(actions)
    requires |first| <= 1 && (first != [] ==> first[0].action == actions[0])
    requires DistinctDone(rest) && From(rest, actions[1..])
    ensures DistinctDone(first + rest) && From(first + rest, actions)
  {
    forall i | 0 <= i < |rest| ensures rest[i].action in actions && rest[i].action.id != actions[0].id {
      var k :| 0 <= k < |actions| - 1 && actions[1..][k] == rest[i].action;
      assert actions[k + 1] == rest[i].action;
    }
  }

  lemma {:induction false} AppliedOnce<T, R>(d: Driver<T, R>, t: T, actions: seq<Action>)
    requires DistinctActions(actions)
    ensures DistinctDone(Forward(d, t, actions).done) && From(Forward(d, t, actions).done, actions)
  {
    hide DistinctDone, From;
    if actions == [] {
      NothingDone<R>(actions);
    } else {
      var a := actions[0];
      var (seen, inspection) := d.inspect(t, a);
      assert DistinctActions(actions[1..]);
      NothingDone<R>(actions);
      if inspection.Some? && inspection.value.Satisfied? {
        AppliedOnce(d, seen, actions[1..]);
        DistinctOnward(actions, [], Forward(d, seen, actions[1..]).done);
      } else if inspection.Some? && inspection.value.NeedsApply? {
        var (next, receipt) := d.apply(seen, a);
        if receipt.Some? {
          AppliedOnce(d, next, actions[1..]);
          DistinctOnward(actions, if receipt.value.changed then [Done(a, receipt.value)] else [],
                         Forward(d, next, actions[1..]).done);
        }
      }
    }
  }

  lemma NothingDone<R>(actions: seq<Action>)
    ensures DistinctDone<R>([]) && From<R>([], actions)
  {
  }

  lemma {:induction false} UndosDistinct<R>(done: seq<Done<R>>)
    requires DistinctDone(done)
    ensures DistinctDone(Undos(done))
    ensures forall x :: x in Undos(done) ==> x in done
    decreases |done|
  {
    if done != [] {
      var front, last := done[..|done| - 1], done[|done| - 1];
      UndosDistinct(front);
      assert Undos(done) == Undo(last) + Undos(front);
      forall i | 0 <= i < |Undos(front)| ensures Undos(front)[i].action.id != last.action.id {
        assert Undos(front)[i] in Undos(front);
        var k :| 0 <= k < |front| && front[k] == Undos(front)[i];
        assert done[k] == front[k];
      }
    }
  }

  /** In a numbered plan no action is undone twice. */
  lemma UndoneOnce<T, R>(d: Driver<T, R>, t: T, actions: seq<Action>)
    requires Numbered(actions)
    ensures DistinctDone(Undos(Forward(d, t, actions).done))
  {
    DistinctIds(actions);
    AppliedOnce(d, t, actions);
    UndosDistinct(Forward(d, t, actions).done);
  }

  // ------------------------------------------------------------------- restoring plans

  /** Actions the plan marks as irreversible never report a change. */
  ghost predicate KeepsIrreversible<T(!new), R(!new)>(d: Driver<T, R>) {
    forall t: T, a: Action :: !PlannedReversible(a.kind) ==> d.apply(t, a).1.None? || !d.apply(t, a).1.value.changed
  }

  lemma {:induction false} MarkedDoneUndoable<T(!new), R(!new)>(d: Driver<T, R>, t: T, actions: seq<Action>)
    requires KeepsIrreversible(d)
    requires forall i :: 0 <= i < |actions| ==> (actions[i].reversible <==> PlannedReversible(actions[i].kind))
    ensures AllUndoable(Forward(d, t, actions).done)
  {
    if actions != [] {
      var a := actions[0];
      var (seen, inspection) := d.inspect(t, a);
      if inspection.Some? && inspection.value.Satisfied? {
        MarkedDoneUndoable(d, seen, actions[1..]);
      } else if inspection.Some? && inspection.value.NeedsApply? {
        MarkedDoneUndoable(d, d.apply(seen, a).0, actions[1..]);
      }
    }
  }

  /** A built plan is restored by every failure of a lawful driver that finds directories,
      packages, models and checks as they are. */
  lemma PlannedRestores<T(!new), R(!new)>(d: Driver<T, R>, t: T, actions: seq<Action>)
    requires WellMarked(actions) && Lawful(d) && KeepsIrreversible(d) && !Forward(d, t, actions).ok
    ensures Outcome(d, t, actions, true).target == t
  {
    hide Id, Lawful;
    MarkedDoneUndoable(d, t, actions);
    FailureRestores(d, t, actions);
  }

  /** But no built plan is restored by every failure: it starts with a directory. */
  lemma PlannedDoesNotAlwaysRestore(intent: Intent, actions: seq<Action>)
    requires WellMarked(actions) && KindsOf(actions) == PlannedKinds(intent)
    ensures !AlwaysRestores(actions)
  {
    hide Id, AlwaysRestores;
    RestoresExactly(actions);
    assert KindsOf(actions)[0] == actions[0].kind && PlannedKinds(intent)[0] == EnsureDirectory;
    assert |actions| == |KindsOf(actions)| > 1;
  }
}
