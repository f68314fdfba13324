/** Applying a reviewed plan as a saga: actions run in order, and a failure undoes the
    changed reversible ones in reverse.  The driver may fail at any call; a target of type
    `T` is what it changes and `R` is the undo data of its receipts. */
module SetupApply {
  import opened Contracts

  datatype Kind =
    | EnsureDirectory | EnsurePackage | EnsureDriverBridge | RenderConfig
    | VerifyModel | DownloadModel | ConvertModel | Preflight
    | WorkerStop | ReconcileWorker | RuntimeStart | HealthCheck | RuntimeStop | RuntimeRelease

  datatype Action = Action(
    id: string, kind: Kind, payload: Opaque, requiresPrivilege: bool, requiresNetwork: bool,
    requiresConfirmation: bool, reversible: bool)

  datatype Approval = Approval(
    planDigest: string, allowPrivileged: bool, allowNetwork: bool, allowConfirmation: bool,
    allowDownload: bool, allowConvert: bool)

  datatype Plan = Plan(digest: string, actions: seq<Action>)

  datatype Inspection = Satisfied | NeedsApply | Blocked

  datatype Receipt<R> = Receipt(changed: bool, undo: R)

  datatype Status = Skipped | Applied | Failed | BlockedByInspection | RolledBack | RollbackFailed

  datatype Result = Result(id: string, status: Status, changed: bool)

  /** What a driver does to the target and what it answers; `None` is a raise. */
  datatype Driver<!T, !R> = Driver(
    inspect: (T, Action) -> (T, Option<Inspection>),
    apply: (T, Action) -> (T, Option<Receipt<R>>),
    rollback: (T, Action, Receipt<R>) -> (T, Option<bool>))

  datatype Done<R> = Done(action: Action, receipt: Receipt<R>)

  // -------------------------------------------------------------------- approval

  predicate Approves(approval: Approval, plan: Plan) {
    && approval.planDigest == plan.digest
    && (forall a :: a in plan.actions ==>
          && (a.requiresPrivilege ==> approval.allowPrivileged)
          && (a.requiresNetwork ==> approval.allowNetwork)
          && (a.requiresConfirmation ==> approval.allowConfirmation)
          && (a.kind.DownloadModel? ==> approval.allowDownload)
          && (a.kind.ConvertModel? ==> approval.allowConvert))
  }

  // --------------------------------------------------------------- specification

  /** Outcome of the forward pass: the target, the applied actions in order, the results
      reported so far and whether every action went through. */
  datatype Pass<T, R> = Pass(target: T, done: seq<Done<R>>, results: seq<Result>, ok: bool)

  function Stopped<T, R>(t: T, a: Action, status: Status): Pass<T, R> {
    Pass(t, [], [Result(a.id, status, false)], false)
  }

  function Onward<T, R>(done: seq<Done<R>>, result: Result, rest: Pass<T, R>): Pass<T, R> {
    Pass(rest.target, done + rest.done, [result] + rest.results, rest.ok)
  }

  function Forward<T, R>(d: Driver<T, R>, t: T, actions: seq<Action>): Pass<T, R> {
    if actions == [] then Pass(t, [], [], true)
    else
      var a := actions[0];
      var (seen, inspection) := d.inspect(t, a);
      match inspection
      case None => Stopped(seen, a, Status.Failed)
      case Some(Blocked) => Stopped(seen, a, BlockedByInspection)
      case Some(Satisfied) => Onward([], Result(a.id, Skipped, false), Forward(d, seen, actions[1..]))
      case Some(NeedsApply) =>
        var (next, receipt) := d.apply(seen, a);
        match receipt
        case None => Stopped(next, a, Status.Failed)
        case Some(r) =>
          Onward(if r.changed then [Done(a, r)] else [],
                 Result(a.id, if r.changed then Applied else Skipped, r.changed),
                 Forward(d, next, actions[1..]))
  }

  predicate Undoable<R>(item: Done<R>) {
    item.action.reversible && item.receipt.changed
  }

  /** The undo calls a rollback makes, in order. */
  function Undos<R>(done: seq<Done<R>>): seq<Done<R>> {
    if done == [] then [] else Undo(done[|done| - 1]) + Undos(done[..|done| - 1])
  }

  function Undo<R>(item: Done<R>): seq<Done<R>> {
    if Undoable(item) then [item] else []
  }

  /** The target after a series of undo calls, whatever each of them answers. */
  function Unwound<T, R>(d: Driver<T, R>, t: T, calls: seq<Done<R>>): T
    decreases |calls|
  {
    if calls == [] then t
    else Unwound(d, d.rollback(t, calls[0].action, calls[0].receipt).0, calls[1..])
  }

  function UndoResult<T, R>(d: Driver<T, R>, t: T, item: Done<R>): Result {
    match d.rollback(t, item.action, item.receipt).1
    case None => Result(item.action.id, RollbackFailed, false)
    case Some(changed) => Result(item.action.id, RolledBack, changed)
  }

  function UndoResults<T, R>(d: Driver<T, R>, t: T, calls: seq<Done<R>>): seq<Result>
    decreases |calls|
  {
    if calls == [] then []
    else [UndoResult(d, t, calls[0])]
         + UndoResults(d, d.rollback(t, calls[0].action, calls[0].receipt).0, calls[1..])
  }

  datatype Report<T> = Report(target: T, succeeded: bool, actions: seq<Result>, rollbacks: seq<Result>)

  /** The whole application, once approved. */
  function Outcome<T, R>(d: Driver<T, R>, t: T, actions: seq<Action>, rollbackOnFailure: bool): Report<T> {
    var pass := Forward(d, t, actions);
    if pass.ok || !rollbackOnFailure then Report(pass.target, pass.ok, pass.results, [])
    else
      Report(Unwound(d, pass.target, Undos(pass.done)), false, pass.results,
             UndoResults(d, pass.target, Undos(pass.done)))
  }

  // ------------------------------------------------------------------- the methods

  lemma UndosLast<R>(done: seq<Done<R>>, item: Done<R>)
    ensures Undos(done + [item]) == Undo(item) + Undos(done)
  {
    assert (done + [item])[..|done|] == done;
  }

  lemma Regroup<X>(a: seq<X>, b: seq<X>, c: seq<X>)
    ensures a + b + c == a + (b + c)
  {
  }

  lemma {:induction false} UndosConcat<R>(a: seq<Done<R>>, b: seq<Done<R>>)
    ensures Undos(a + b) == Undos(b) + Undos(a)
    decreases |b|
  {
    if b == [] {
      assert a + b == a && Undos(b) + Undos(a) == Undos(a);
    } else {
      hide Undo, Undos;
      var front, last := b[..|b| - 1], b[|b| - 1];
      assert b == front + [last];
      Regroup(a, front, [last]);
      UndosLast(a + front, last);
      UndosLast(front, last);
      UndosConcat(a, front);
      Regroup(Undo(last), Undos(front), Undos(a));
    }
  }

  /** Approval is checked before the driver is called at all. */
  method ValidateApproval(plan: Plan, approval: Approval) returns (approved: bool)
    ensures approved <==> Approves(approval, plan)
  {
    if approval.planDigest != plan.digest { return false; }
    var i := 0;
    var privilege, network, confirmation := false, false, false;
    while i < |plan.actions|
      invariant 0 <= i <= |plan.actions|
      invariant privilege <==> exists k :: 0 <= k < i && plan.actions[k].requiresPrivilege
      invariant network <==> exists k :: 0 <= k < i && plan.actions[k].requiresNetwork
      invariant confirmation <==> exists k :: 0 <= k < i && plan.actions[k].requiresConfirmation
    {
      privilege := privilege || plan.actions[i].requiresPrivilege;
      network := network || plan.actions[i].requiresNetwork;
      confirmation := confirmation || plan.actions[i].requiresConfirmation;
      i := i + 1;
    }
    if privilege && !approval.allowPrivileged { return false; }
    if network && !approval.allowNetwork { return false; }
    if confirmation && !approval.allowConfirmation { return false; }
    i := 0;
    while i < |plan.actions|
      invariant 0 <= i <= |plan.actions|
      invariant forall k :: 0 <= k < i ==>
                  && (plan.actions[k].kind.DownloadModel? ==> approval.allowDownload)
                  && (plan.actions[k].kind.ConvertModel? ==> approval.allowConvert)
    {
      if plan.actions[i].kind.DownloadModel? && !approval.allowDownload { return false; }
      if plan.actions[i].kind.ConvertModel? && !approval.allowConvert { return false; }
      i := i + 1;
    }
    approved := true;
  }

  method Rollback<T, R>(d: Driver<T, R>, start: T, done: seq<Done<R>>)
    returns (target: T, results: seq<Result>)
    ensures target == Unwound(d, start, Undos(done))
    ensures results == UndoResults(d, start, Undos(done))
  {
    hide Undos, Unwound, UndoResults;
    target, results := start, [];
    ghost var calls: seq<Done<R>> := [];
    var i := |done|;
    assert done[..i] == done;
    RollbackStart(d, start);
    while i > 0
      invariant 0 <= i <= |done|
      invariant Undos(done) == calls + Undos(done[..i])
      invariant target == Unwound(d, start, calls) && results == UndoResults(d, start, calls)
    {
      i := i - 1;
      var item := done[i];
      assert done[..i + 1] == done[..i] + [item];
      UndosLast(done[..i], item);
      Regroup(calls, Undo(item), Undos(done[..i]));
      if item.action.reversible && item.receipt.changed {
        UnwoundSnoc(d, start, calls, item);
        results := results + [UndoResult(d, target, item)];
        var (next, _) := d.rollback(target, item.action, item.receipt);
        target := next;
        calls := calls + [item];
      }
    }
    assert done[..0] == [];
    assert calls + [] == calls;
    assert Undos(done) == calls;
  }

  lemma RollbackStart<T, R>(d: Driver<T, R>, t: T)
    ensures Unwound(d, t, []) == t && UndoResults(d, t, []) == [] && Undos<R>([]) == []
  {
  }

  /** What the report says of an action is what the driver answered for it, on the target that
      the actions before it left. */
  predicate Tells<T, R>(d: Driver<T, R>, t: T, a: Action, result: Result) {
    var (seen, inspection) := d.inspect(t, a);
    var (next, receipt) := d.apply(seen, a);
    && result.id == a.id
    && (result.status.BlockedByInspection? <==> inspection == Some(Blocked))
    && (result.status == Status.Failed <==> inspection.None? || (inspection == Some(NeedsApply) && receipt.None?))
    && (result.status.Applied? <==> inspection == Some(NeedsApply) && receipt.Some? && receipt.value.changed)
    && (result.status.Skipped? <==>
          inspection == Some(Satisfied) || (inspection == Some(NeedsApply) && receipt.Some? && !receipt.value.changed))
    && (result.changed <==> result.status.Applied?)
  }

  lemma {:induction false} ResultsTell<T, R>(d: Driver<T, R>, t: T, actions: seq<Action>, i: nat)
    requires i < |Forward(d, t, actions).results|
    ensures i < |actions| && Tells(d, Forward(d, t, actions[..i]).target, actions[i], Forward(d, t, actions).results[i])
    decreases |actions|
  {
    var a := actions[0];
    var (seen, inspection) := d.inspect(t, a);
    var next := if inspection == Some(Satisfied) then seen else d.apply(seen, a).0;
    if i == 0 {
      assert actions[..0] == [];
    } else {
      ResultsTell(d, next, actions[1..], i - 1);
      assert actions[..i][0] == a && actions[..i][1..] == actions[1..][..i - 1];
    }
  }

  /** Nothing is undone unless a failed pass was asked to be rolled back; then every undo call
      is reported. */
  lemma UndoesOnlyWhenAsked<T, R>(d: Driver<T, R>, t: T, actions: seq<Action>, rollbackOnFailure: bool)
    ensures var pass, report := Forward(d, t, actions), Outcome(d, t, actions, rollbackOnFailure);
            && (report.succeeded <==> pass.ok) && report.actions == pass.results
            && (pass.ok || !rollbackOnFailure ==> report.target == pass.target && report.rollbacks == [])
            && (!pass.ok && rollbackOnFailure ==> |report.rollbacks| == |Undos(pass.done)|)
  {
    var pass := Forward(d, t, actions);
    if Undos(pass.done) != [] { UndosReported(d, pass.target, Undos(pass.done), 0); }
  }

  /** The rollback's report is what the driver answered: the undo calls in order, each rolled
      back with the change the driver reported, or failed when the driver raised. */
  lemma {:induction false} UndosReported<T, R>(d: Driver<T, R>, t: T, calls: seq<Done<R>>, i: nat)
    requires i < |calls|
    ensures |UndoResults(d, t, calls)| == |calls|
    ensures var answer := d.rollback(Unwound(d, t, calls[..i]), calls[i].action, calls[i].receipt).1;
            var result := UndoResults(d, t, calls)[i];
            && result.id == calls[i].action.id
            && (result.status.RolledBack? <==> answer.Some?)
            && (result.status.RollbackFailed? <==> answer.None?)
            && (result.changed <==> answer == Some(true))
    decreases |calls|
  {
    if i == 0 {
      assert calls[..0] == [];
      if |calls| > 1 { UndosReported(d, d.rollback(t, calls[0].action, calls[0].receipt).0, calls[1..], 0); }
    } else {
      assert calls[..i][1..] == calls[1..][..i - 1] && calls[..i][0] == calls[0];
      UndosReported(d, d.rollback(t, calls[0].action, calls[0].receipt).0, calls[1..], i - 1);
    }
  }

  /** Runs an approved plan; `None` when the approval does not cover it. */
  method ApplyPlan<T, R>(plan: Plan, d: Driver<T, R>, start: T, approval: Approval, rollbackOnFailure: bool)
    returns (target: T, report: Option<Report<T>>)
    ensures report.Some? <==> Approves(approval, plan)
    ensures report.None? ==> target == start
    ensures report.Some? ==>
              report.value == Outcome(d, start, plan.actions, rollbackOnFailure) && target == report.value.target
  {
    target := start;
    var approved := ValidateApproval(plan, approval);
    if !approved { return target, None; }
    var results, done: seq<Done<R>> := [], [];
    var failed: Option<Result> := None;
    var i := 0;
    ghost var whole := Forward(d, start, plan.actions);
    assert plan.actions[0..] == plan.actions;
    ContinuedFromStart(whole);
    while i < |plan.actions| && failed.None?
      invariant 0 <= i <= |plan.actions|
      invariant failed.None? ==>
                  whole == Continued(done, results, Forward(d, target, plan.actions[i..]))
      invariant failed.Some? ==> whole == Pass(target, done, results + [failed.value], false)
    {
      var action := plan.actions[i];
      assert plan.actions[i..][0] == action && plan.actions[i..][1..] == plan.actions[i + 1..];
      var (seen, inspection) := d.inspect(target, action);
      target := seen;
      if inspection.None? {
        failed := Some(Result(action.id, Status.Failed, false));
        ContinuedStops(done, results, target, failed.value);
      } else if inspection.value.Blocked? {
        failed := Some(Result(action.id, BlockedByInspection, false));
        ContinuedStops(done, results, target, failed.value);
      } else if inspection.value.Satisfied? {
        ContinuedOnward(done, results, [], Result(action.id, Skipped, false), Forward(d, target, plan.actions[i + 1..]));
        results := results + [Result(action.id, Skipped, false)];
        assert done + [] == done;
      } else {
        var (next, receipt) := d.apply(target, action);
        target := next;
        if receipt.None? {
          failed := Some(Result(action.id, Status.Failed, false));
          ContinuedStops(done, results, target, failed.value);
        } else {
          var changed := receipt.value.changed;
          var more := if changed then [Done(action, receipt.value)] else [];
          var result := Result(action.id, if changed then Applied else Skipped, changed);
          ContinuedOnward(done, results, more, result, Forward(d, target, plan.actions[i + 1..]));
          if changed { done := done + [Done(action, receipt.value)]; } else { assert done + [] == done; }
          results := results + [result];
        }
      }
      i := i + 1;
    }
    if failed.None? {
      assert plan.actions[i..] == [];
      return target, Some(Report(target, true, results, []));
    }
    results := results + [failed.value];
    var undone: seq<Result> := [];
    if rollbackOnFailure {
      target, undone := Rollback(d, target, done);
    }
    return target, Some(Report(target, false, results, undone));
  }

  lemma ContinuedFromStart<T, R>(rest: Pass<T, R>)
    ensures Continued([], [], rest) == rest
  {
    assert [] + rest.done == rest.done && [] + rest.results == rest.results;
  }

  lemma ContinuedOnward<T, R>(done: seq<Done<R>>, results: seq<Result>, more: seq<Done<R>>, result: Result, rest: Pass<T, R>)
    ensures Continued(done, results, Onward(more, result, rest)) == Continued(done + more, results + [result], rest)
  {
    assert done + (more + rest.done) == done + more + rest.done;
    assert results + ([result] + rest.results) == results + [result] + rest.results;
  }

  lemma ContinuedStops<T, R>(done: seq<Done<R>>, results: seq<Result>, t: T, result: Result)
    ensures Continued(done, results, Pass(t, [], [result], false)) == Pass(t, done, results + [result], false)
  {
    assert done + [] == done;
  }

  function Continued<T, R>(done: seq<Done<R>>, results: seq<Result>, rest: Pass<T, R>): Pass<T, R> {
    Pass(rest.target, done + rest.done, results + rest.results, rest.ok)
  }

  lemma {:induction false} UnwoundSnoc<T, R>(d: Driver<T, R>, t: T, calls: seq<Done<R>>, item: Done<R>)
    ensures Unwound(d, t, calls + [item]) == d.rollback(Unwound(d, t, calls), item.action, item.receipt).0
    ensures UndoResults(d, t, calls + [item]) == UndoResults(d, t, calls) + [UndoResult(d, Unwound(d, t, calls), item)]
    decreases |calls|
  {
    if calls == [] {
      assert [item][1..] == [];
    } else {
      assert (calls + [item])[0] == calls[0] && (calls + [item])[1..] == calls[1..] + [item];
      UnwoundSnoc(d, d.rollback(t, calls[0].action, calls[0].receipt).0, calls[1..], item);
    }
  }

  // -------------------------------------------------------------------- properties

  function Selected<R>(done: seq<Done<R>>): seq<Done<R>> {
    if done == [] then [] else Undo(done[0]) + Selected(done[1..])
  }

  /** A rollback undoes exactly the changed reversible applications, each once, in reverse. */
  lemma {:induction false} UndosAreReversed<R>(done: seq<Done<R>>)
    ensures |Undos(done)| == |Selected(done)|
    ensures forall k :: 0 <= k < |Undos(done)| ==> Undos(done)[k] == Selected(done)[|Undos(done)| - 1 - k]
  {
    if done != [] {
      assert done == [done[0]] + done[1..];
      UndosAreReversed(done[1..]);
      UndosConcat([done[0]], done[1..]);
      assert [done[0]][..0] == [];
    }
  }

  function AppliedIds(results: seq<Result>): seq<string> {
    if results == [] then []
    else (if results[0].status.Applied? then [results[0].id] else []) + AppliedIds(results[1..])
  }

  function Ids<R>(done: seq<Done<R>>): seq<string> {
    seq(|done|, i requires 0 <= i < |done| => done[i].action.id)
  }

  /** The report matches what happened: what a rollback may undo is what is reported
      applied, in plan order, and every action up to the first failure is reported once. */
  predicate Matches<T, R>(pass: Pass<T, R>, actions: seq<Action>) {
    && AppliedIds(pass.results) == Ids(pass.done)
    && |pass.results| <= |actions|
    && (forall k :: 0 <= k < |pass.results| ==> pass.results[k].id == actions[k].id)
    && (pass.ok <==> |pass.results| == |actions| && forall k :: 0 <= k < |actions| ==>
          pass.results[k].status.Applied? || pass.results[k].status.Skipped?)
    && (forall k :: 0 <= k < |pass.done| ==> pass.done[k].receipt.changed)
  }

  lemma {:induction false} ReportMatches<T, R>(d: Driver<T, R>, t: T, actions: seq<Action>)
    ensures Matches(Forward(d, t, actions), actions)
  {
    if actions != [] {
      var a := actions[0];
      var (seen, inspection) := d.inspect(t, a);
      if inspection.Some? && inspection.value.Satisfied? {
        ReportMatches(d, seen, actions[1..]);
        OnwardMatches([], Result(a.id, Skipped, false), Forward(d, seen, actions[1..]), actions);
      } else if inspection.Some? && inspection.value.NeedsApply? {
        var (next, receipt) := d.apply(seen, a);
        if receipt.Some? {
          var r := receipt.value;
          ReportMatches(d, next, actions[1..]);
          OnwardMatches(if r.changed then [Done(a, r)] else [],
                        Result(a.id, if r.changed then Applied else Skipped, r.changed),
                        Forward(d, next, actions[1..]), actions);
        }
      }
    }
  }

  lemma OnwardMatches<T, R>(done: seq<Done<R>>, result: Result, rest: Pass<T, R>, actions: seq<Action>)
    requires actions != [] && result.id == actions[0].id && (result.status.Applied? || result.status.Skipped?)
    requires if result.status.Applied? then |done| == 1 && done[0].action.id == result.id && done[0].receipt.changed
             else done == []
    requires Matches(rest, actions[1..])
    ensures Matches(Onward(done, result, rest), actions)
  {
    var pass := Onward(done, result, rest);
    assert pass.results[1..] == rest.results;
    assert Ids(pass.done) == Ids(done) + Ids(rest.done);
    assert forall k :: 1 <= k < |actions| ==> actions[k] == actions[1..][k - 1];
    assert forall k :: 1 <= k < |pass.results| ==> pass.results[k] == rest.results[k - 1];
  }

  /** The driver laws under which a rollback can restore the target. */
  ghost predicate Lawful<T(!new), R(!new)>(d: Driver<T, R>) {
    && (forall t, a :: d.inspect(t, a).0 == t)
    && (forall t, a :: d.apply(t, a).1.None? || !d.apply(t, a).1.value.changed ==> d.apply(t, a).0 == t)
    && (forall t, a :: d.apply(t, a).1.Some? && d.apply(t, a).1.value.changed ==>
          d.rollback(d.apply(t, a).0, a, d.apply(t, a).1.value).0 == t)
  }

  predicate AllUndoable<R>(done: seq<Done<R>>) {
    forall k :: 0 <= k < |done| ==> Undoable(done[k])
  }

  lemma {:induction false} UnwoundConcat<T, R>(d: Driver<T, R>, t: T, a: seq<Done<R>>, b: seq<Done<R>>)
    ensures Unwound(d, t, a + b) == Unwound(d, Unwound(d, t, a), b)
    decreases |a|
  {
    if a == [] {
      assert a + b == b;
    } else {
      assert (a + b)[0] == a[0] && (a + b)[1..] == a[1..] + b;
      UnwoundConcat(d, d.rollback(t, a[0].action, a[0].receipt).0, a[1..], b);
    }
  }

  lemma {:induction false} UnwindsToStart<T(!new), R(!new)>(d: Driver<T, R>, t: T, actions: seq<Action>)
    requires Lawful(d) && AllUndoable(Forward(d, t, actions).done)
    ensures var pass := Forward(d, t, actions); Unwound(d, pass.target, Undos(pass.done)) == t
  {
    if actions != [] {
      var a := actions[0];
      var (seen, inspection) := d.inspect(t, a);
      if inspection.Some? && inspection.value.Satisfied? {
        var rest := Forward(d, seen, actions[1..]);
        assert [] + rest.done == rest.done;
        UnwindsToStart(d, seen, actions[1..]);
      } else if inspection.Some? && inspection.value.NeedsApply? {
        var (next, receipt) := d.apply(seen, a);
        if receipt.Some? {
          var rest := Forward(d, next, actions[1..]);
          var first := if receipt.value.changed then [Done(a, receipt.value)] else [];
          assert forall k :: 0 <= k < |rest.done| ==> rest.done[k] == (first + rest.done)[|first| + k];
          UnwindsToStart(d, next, actions[1..]);
          UndosConcat(first, rest.done);
          UnwoundConcat(d, rest.target, Undos(rest.done), Undos(first));
          if receipt.value.changed {
            assert (first + rest.done)[0] == first[0];
            assert first[..0] == [] && Undos(first) == first && first[1..] == [];
          } else {
            assert [] + rest.done == rest.done;
          }
        }
      }
    }
  }

  /** A failed application with rollback restores the starting target when the driver is
      lawful and every applied change is undoable. */
  lemma FailureRestores<T(!new), R(!new)>(d: Driver<T, R>, t: T, actions: seq<Action>)
    requires Lawful(d) && !Forward(d, t, actions).ok && AllUndoable(Forward(d, t, actions).done)
    ensures Outcome(d, t, actions, true).target == t && !Outcome(d, t, actions, true).succeeded
  {
    UnwindsToStart(d, t, actions);
  }

  // ------------------------------------------- which plans restore, before applying them

  /** Every action but the last one can be undone. */
  predicate ReversibleButLast(actions: seq<Action>) {
    forall i :: 0 <= i < |actions| - 1 ==> actions[i].reversible
  }

  lemma {:induction false} FailedDoneReversible<T, R>(d: Driver<T, R>, t: T, actions: seq<Action>)
    requires ReversibleButLast(actions) && !Forward(d, t, actions).ok
    ensures AllUndoable(Forward(d, t, actions).done)
  {
    if actions != [] {
      var a, rest := actions[0], actions[1..];
      var (seen, inspection) := d.inspect(t, a);
      assert forall i :: 0 <= i < |rest| - 1 ==> rest[i] == actions[i + 1];
      if inspection.Some? && inspection.value.Satisfied? {
        FailedDoneReversible(d, seen, rest);
      } else if inspection.Some? && inspection.value.NeedsApply? {
        var (next, receipt) := d.apply(seen, a);
        if receipt.Some? {
          FailedDoneReversible(d, next, rest);
          NothingLeft(d, next, rest);
        }
      }
    }
  }

  lemma NothingLeft<T, R>(d: Driver<T, R>, t: T, actions: seq<Action>)
    ensures actions == [] ==> Forward(d, t, actions).ok
  {
  }

  /** Whatever lawful driver applies such a plan, a failure restores the starting target. */
  lemma ReversiblePlanRestores<T(!new), R(!new)>(d: Driver<T, R>, t: T, actions: seq<Action>)
    requires Lawful(d) && ReversibleButLast(actions) && !Forward(d, t, actions).ok
    ensures Outcome(d, t, actions, true).target == t
  {
    FailedDoneReversible(d, t, actions);
    FailureRestores(d, t, actions);
  }

  /** Changes the target at `x` and raises at whatever is inspected next. */
  function ChangesAt(x: Action): Driver<bool, bool> {
    Driver(
      (t: bool, a: Action) => (t, if t then None else Some(if a == x then NeedsApply else Satisfied)),
      (t: bool, a: Action) => if t then (t, None) else (true, Some(Receipt(true, true))),
      (t: bool, a: Action, r: Receipt<bool>) => (false, Some(true)))
  }

  lemma {:induction false} ChangedAndStuck(x: Action, actions: seq<Action>, i: nat)
    requires i + 1 < |actions| && actions[i] == x
    ensures var pass := Forward(ChangesAt(x), false, actions);
            !pass.ok && pass.target && pass.done == [Done(x, Receipt(true, true))]
  {
    var d := ChangesAt(x);
    if actions[0] == x {
      assert Forward(d, true, actions[1..]) == Stopped(true, actions[1], Status.Failed);
    } else {
      ChangedAndStuck(x, actions[1..], i - 1);
    }
  }

  lemma StuckStays(x: Action, actions: seq<Action>, i: nat)
    requires i + 1 < |actions| && actions[i] == x && !x.reversible
    ensures Lawful(ChangesAt(x)) && !Forward(ChangesAt(x), false, actions).ok
    ensures Outcome(ChangesAt(x), false, actions, true).target
  {
    ChangedAndStuck(x, actions, i);
    var done := [Done(x, Receipt(true, true))];
    assert done[..0] == [] && Undos(done) == [];
  }

  /** Every failure of a lawful driver restores the starting target. */
  ghost predicate AlwaysRestores(actions: seq<Action>) {
    forall d: Driver<bool, bool>, t: bool ::
      Lawful(d) && !Forward(d, t, actions).ok ==> Outcome(d, t, actions, true).target == t
  }

  /** The exact condition, read off the plan before it is applied: a plan is restored by every
      failure of every lawful driver if and only if all its actions but the last can be undone. */
  lemma RestoresExactly(actions: seq<Action>)
    ensures AlwaysRestores(actions) <==> ReversibleButLast(actions)
  {
    hide Forward, Outcome, Lawful;
    if ReversibleButLast(actions) {
      forall d: Driver<bool, bool>, t: bool | Lawful(d) && !Forward(d, t, actions).ok
        ensures Outcome(d, t, actions, true).target == t
      {
        ReversiblePlanRestores(d, t, actions);
      }
    }
    forall i | 0 <= i < |actions| - 1 && !actions[i].reversible ensures !AlwaysRestores(actions) {
      StuckStays(actions[i], actions, i);
    }
  }

  const MAKE_DIRECTORY := Action("01-ensure-directory", EnsureDirectory, "config", false, false, false, false)
  const START := Action("02-runtime-start", RuntimeStart, "", false, false, false, true)

  /** Directories are planned as irreversible: a lawful driver that creates one and then
      fails to start leaves it behind. */
  lemma IrreversibleStays() returns (d: Driver<set<Opaque>, Opaque>)
    ensures Lawful(d)
    ensures Outcome(d, {}, [MAKE_DIRECTORY, START], true) ==
            Report({"config"}, false,
                   [Result(MAKE_DIRECTORY.id, Applied, true), Result(START.id, Status.Failed, false)], [])
  {
    d := Driver(
      (t: set<Opaque>, a: Action) => (t, Some(NeedsApply)),
      (t: set<Opaque>, a: Action) =>
        if !a.kind.EnsureDirectory? then (t, None)
        else if a.payload in t then (t, Some(Receipt(false, "")))
        else (t + {a.payload}, Some(Receipt(true, a.payload))),
      (t: set<Opaque>, a: Action, r: Receipt<Opaque>) => (t - {r.undo}, Some(true)));
    forall t: set<Opaque>, a: Action | d.apply(t, a).1.Some? && d.apply(t, a).1.value.changed
      ensures d.rollback(d.apply(t, a).0, a, d.apply(t, a).1.value).0 == t
    {
      assert (t + {a.payload}) - {a.payload} == t;
    }
    var actions := [MAKE_DIRECTORY, START];
    assert actions[1..] == [START] && [START][1..] == [];
    var t: set<Opaque> := {"config"};
    assert {} + {"config"} == t;
    assert Forward(d, t, [START]) == Stopped(t, START, Status.Failed);
    var done := [Done(MAKE_DIRECTORY, Receipt(true, "config"))];
    assert done + [] == done;
    assert Forward(d, {}, actions).done == done;
    assert done[..0] == [] && Undos(done) == [];
  }

  // ---------------------------------------------------- properties that every call keeps

  /** What each driver call keeps, the whole application keeps: forward, failed or undone. */
  ghost predicate Keeps<T(!new), R(!new)>(d: Driver<T, R>, good: T -> bool) {
    && (forall t, a :: good(t) ==> good(d.inspect(t, a).0) && good(d.apply(t, a).0))
    && (forall t, a, r :: good(t) ==> good(d.rollback(t, a, r).0))
  }

  lemma {:induction false} ForwardKeeps<T(!new), R(!new)>(d: Driver<T, R>, good: T -> bool, t: T, actions: seq<Action>)
    requires Keeps(d, good) && good(t)
    ensures good(Forward(d, t, actions).target)
  {
    if actions != [] {
      var (seen, inspection) := d.inspect(t, actions[0]);
      assert good(d.inspect(t, actions[0]).0);
      assert good(d.apply(seen, actions[0]).0);
      ForwardKeeps(d, good, seen, actions[1..]);
      ForwardKeeps(d, good, d.apply(seen, actions[0]).0, actions[1..]);
    }
  }

  lemma {:induction false} UnwoundKeeps<T(!new), R(!new)>(d: Driver<T, R>, good: T -> bool, t: T, calls: seq<Done<R>>)
    requires Keeps(d, good) && good(t)
    ensures good(Unwound(d, t, calls))
    decreases |calls|
  {
    if calls != [] {
      assert good(d.rollback(t, calls[0].action, calls[0].receipt).0);
      UnwoundKeeps(d, good, d.rollback(t, calls[0].action, calls[0].receipt).0, calls[1..]);
    }
  }

  lemma OutcomeKeeps<T(!new), R(!new)>(d: Driver<T, R>, good: T -> bool, t: T, actions: seq<Action>, rollbackOnFailure: bool)
    requires Keeps(d, good) && good(t)
    ensures good(Outcome(d, t, actions, rollbackOnFailure).target)
  {
    var pass := Forward(d, t, actions);
    ForwardKeeps(d, good, t, actions);
    UnwoundKeeps(d, good, pass.target, Undos(pass.done));
  }

  // -------------------------------------------------------------- calls of the driver

  /** A target, and the calls made so far of its driver. */
  datatype Calls<T> = Calls(target: T, count: nat)

  /** The same driver, counting every call made of it. */
  function Counted<T, R>(d: Driver<T, R>): Driver<Calls<T>, R> {
    Driver(
      (t: Calls<T>, a: Action) => (Calls(d.inspect(t.target, a).0, t.count + 1), d.inspect(t.target, a).1),
      (t: Calls<T>, a: Action) => (Calls(d.apply(t.target, a).0, t.count + 1), d.apply(t.target, a).1),
      (t: Calls<T>, a: Action, r: Receipt<R>) =>
        (Calls(d.rollback(t.target, a, r).0, t.count + 1), d.rollback(t.target, a, r).1))
  }

  lemma FirstInspectionCounts<T(!new), R(!new)>(d: Driver<T, R>, t: T, actions: seq<Action>, rollbackOnFailure: bool)
    requires actions != []
    ensures Outcome(Counted(d), Calls(t, 0), actions, rollbackOnFailure).target.count > 0
  {
    var c, called := Counted(d), (x: Calls<T>) => x.count > 0;
    assert Keeps(c, called);
    var seen := c.inspect(Calls(t, 0), actions[0]).0;
    ForwardKeeps(c, called, seen, actions[1..]);
    ForwardKeeps(c, called, c.apply(seen, actions[0]).0, actions[1..]);
    var pass := Forward(c, Calls(t, 0), actions);
    UnwoundKeeps(c, called, pass.target, Undos(pass.done));
  }

  /** Applying a plan makes no call of the driver at all, not even an inspection, exactly when
      the approval does not cover it or there is nothing to apply. */
  method ApplyCounting<T(!new), R(!new)>(plan: Plan, d: Driver<T, R>, start: T, approval: Approval, rollbackOnFailure: bool)
    returns (target: T, calls: nat)
    ensures calls == 0 <==> !Approves(approval, plan) || plan.actions == []
    ensures calls == 0 ==> target == start
  {
    hide Outcome, Approves;
    var counted, report := ApplyPlan(plan, Counted(d), Calls(start, 0), approval, rollbackOnFailure);
    target, calls := counted.target, counted.count;
    if plan.actions != [] {
      FirstInspectionCounts(d, start, plan.actions, rollbackOnFailure);
    } else {
      NothingToApply(Counted(d), Calls(start, 0), plan.actions, rollbackOnFailure);
    }
  }

  lemma NothingToApply<T, R>(d: Driver<T, R>, t: T, actions: seq<Action>, rollbackOnFailure: bool)
    requires actions == []
    ensures Outcome(d, t, actions, rollbackOnFailure).target == t
  {
  }
}
