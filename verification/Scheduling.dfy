/** Worker eligibility: the matcher that decides whether a worker satisfies a job. */
module Scheduling {
  import opened Contracts

  /** Every label asked for is present with exactly that value. */
  predicate LabelsMatch(labels: map<string, string>, required: map<string, string>) {
    forall k :: k in required ==> k in labels && labels[k] == required[k]
  }

  predicate ClassMatches(worker: WorkerSpec, req: JobRequirements) {
    req.workerClass.Some? && req.workerClass.value != "" ==> worker.workerClass == req.workerClass.value
  }

  /** A worker satisfies every requirement of a job. */
  predicate WorkerMatches(worker: WorkerSpec, req: JobRequirements) {
    && ClassMatches(worker, req)
    && req.requiredCapabilities <= worker.capabilities
    && LabelsMatch(worker.labels, req.requiredLabels)
    && req.requiredGpuUuids <= Gpus(worker)
    && req.minGpuCount <= worker.resources.gpuCount
    && req.minTotalVramMb <= worker.resources.totalVramMb
    && req.minSingleGpuVramMb <= worker.resources.maxSingleGpuVramMb
  }

  datatype Reason =
    WorkerClass | Capabilities | Label(key: string) | GpuUuids | GpuCount | TotalVram | SingleGpuVram

  /** The requirement a reason names is the one the worker misses. */
  predicate Misses(worker: WorkerSpec, req: JobRequirements, reason: Reason) {
    match reason
    case WorkerClass => !ClassMatches(worker, req)
    case Capabilities => !(req.requiredCapabilities <= worker.capabilities)
    case Label(k) => k in req.requiredLabels && !(k in worker.labels && worker.labels[k] == req.requiredLabels[k])
    case GpuUuids => !(req.requiredGpuUuids <= Gpus(worker))
    case GpuCount => worker.resources.gpuCount < req.minGpuCount
    case TotalVram => worker.resources.totalVramMb < req.minTotalVramMb
    case SingleGpuVram => worker.resources.maxSingleGpuVramMb < req.minSingleGpuVramMb
  }

  lemma MatchesMissingNothing(worker: WorkerSpec, req: JobRequirements)
    ensures WorkerMatches(worker, req) <==> forall r :: !Misses(worker, req, r)
  {
    if forall r :: !Misses(worker, req, r) {
      assert !Misses(worker, req, WorkerClass) && !Misses(worker, req, Capabilities) && !Misses(worker, req, GpuUuids);
      assert !Misses(worker, req, GpuCount) && !Misses(worker, req, TotalVram) && !Misses(worker, req, SingleGpuVram);
      assert forall k :: k in req.requiredLabels ==> !Misses(worker, req, Label(k));
    }
  }

  function Position(r: Reason): nat {
    match r
    case WorkerClass => 0
    case Capabilities => 1
    case Label(_) => 2
    case GpuUuids => 3
    case GpuCount => 4
    case TotalVram => 5
    case SingleGpuVram => 6
  }

  /** No reason is given twice, and reasons follow the order of the checks; labels may come
      in any order among themselves, as a dictionary yields them. */
  predicate InCheckOrder(reasons: seq<Reason>) {
    forall i, j :: 0 <= i < j < |reasons| ==>
      reasons[i] != reasons[j] && Position(reasons[i]) <= Position(reasons[j])
  }

  /** Reasons collected once the first `n` checks are done, labels still in `left` excepted. */
  ghost predicate Collected(worker: WorkerSpec, req: JobRequirements, reasons: seq<Reason>, n: nat, left: set<string>) {
    && InCheckOrder(reasons)
    && forall r :: r in reasons <==> Misses(worker, req, r) && Position(r) < n && !(r.Label? && r.key in left)
  }

  /** A reason not given yet, and of no earlier check than those given, goes last. */
  lemma NotedInOrder(reasons: seq<Reason>, failed: bool, r: Reason)
    requires InCheckOrder(reasons) && r !in reasons
    requires forall q :: q in reasons ==> Position(q) <= Position(r)
    ensures InCheckOrder(Noted(reasons, failed, r))
  {
  }

  function Noted(reasons: seq<Reason>, failed: bool, r: Reason): seq<Reason> {
    if failed then reasons + [r] else reasons
  }

  /** One more check, its reason appended when it fails. */
  lemma OneMore(worker: WorkerSpec, req: JobRequirements, reasons: seq<Reason>, r: Reason)
    requires !r.Label? && Collected(worker, req, reasons, Position(r), {})
    ensures Collected(worker, req, Noted(reasons, Misses(worker, req, r), r), Position(r) + 1, {})
  {
    NotedInOrder(reasons, Misses(worker, req, r), r);
    hide InCheckOrder;
    forall q: Reason | Position(q) == Position(r) ensures q == r {}
  }

  lemma OneLabel(worker: WorkerSpec, req: JobRequirements, reasons: seq<Reason>, k: string, left: set<string>)
    requires k in left && Collected(worker, req, reasons, 3, left)
    ensures Collected(worker, req, Noted(reasons, Misses(worker, req, Label(k)), Label(k)), 3, left - {k})
  {
    NotedInOrder(reasons, Misses(worker, req, Label(k)), Label(k));
    hide InCheckOrder;
  }

  lemma LabelsStart(worker: WorkerSpec, req: JobRequirements, reasons: seq<Reason>)
    requires Collected(worker, req, reasons, 2, {})
    ensures Collected(worker, req, reasons, 3, req.requiredLabels.Keys)
  {
  }

  /** Labels are checked one by one. */
  method CheckLabels(worker: WorkerSpec, req: JobRequirements, soFar: seq<Reason>) returns (reasons: seq<Reason>)
    requires Collected(worker, req, soFar, 2, {})
    ensures Collected(worker, req, reasons, 3, {}) && InCheckOrder(reasons)
  {
    reasons := soFar;
    LabelsStart(worker, req, reasons);
    var left := req.requiredLabels.Keys;
    while left != {}
      invariant left <= req.requiredLabels.Keys
      invariant Collected(worker, req, reasons, 3, left)
      decreases left
    {
      var k :| k in left;
      OneLabel(worker, req, reasons, k, left);
      var failed := !(k in worker.labels && worker.labels[k] == req.requiredLabels[k]);
      assert failed == Misses(worker, req, Label(k));
      reasons := Noted(reasons, failed, Label(k));
      left := left - {k};
    }
  }

  method CheckResources(worker: WorkerSpec, req: JobRequirements, soFar: seq<Reason>) returns (reasons: seq<Reason>)
    requires Collected(worker, req, soFar, 4, {})
    ensures Collected(worker, req, reasons, 7, {}) && InCheckOrder(reasons)
  {
    reasons := soFar;
    OneMore(worker, req, reasons, GpuCount);
    reasons := Noted(reasons, worker.resources.gpuCount < req.minGpuCount, GpuCount);
    OneMore(worker, req, reasons, TotalVram);
    reasons := Noted(reasons, worker.resources.totalVramMb < req.minTotalVramMb, TotalVram);
    OneMore(worker, req, reasons, SingleGpuVram);
    reasons := Noted(reasons, worker.resources.maxSingleGpuVramMb < req.minSingleGpuVramMb, SingleGpuVram);
  }

  /** Matching collects every missed requirement once, in the order of the checks, and nothing
      else; no reason means a match. */
  method MatchWorker(worker: WorkerSpec, req: JobRequirements) returns (matched: bool, reasons: seq<Reason>)
    ensures forall r :: r in reasons <==> Misses(worker, req, r)
    ensures InCheckOrder(reasons)
    ensures matched <==> reasons == []
    ensures matched <==> WorkerMatches(worker, req)
  {
    reasons := [];
    OneMore(worker, req, reasons, WorkerClass);
    reasons := Noted(reasons, !ClassMatches(worker, req), WorkerClass);
    OneMore(worker, req, reasons, Capabilities);
    reasons := Noted(reasons, !(req.requiredCapabilities <= worker.capabilities), Capabilities);
    reasons := CheckLabels(worker, req, reasons);
    OneMore(worker, req, reasons, GpuUuids);
    reasons := Noted(reasons, !(req.requiredGpuUuids <= Gpus(worker)), GpuUuids);
    reasons := CheckResources(worker, req, reasons);
    matched := reasons == [];
    AllCollected(worker, req, reasons);
  }

  lemma AllCollected(worker: WorkerSpec, req: JobRequirements, reasons: seq<Reason>)
    requires Collected(worker, req, reasons, 7, {})
    ensures forall r :: r in reasons <==> Misses(worker, req, r)
    ensures reasons == [] <==> WorkerMatches(worker, req)
  {
    MatchesMissingNothing(worker, req);
    if reasons != [] { assert reasons[0] in reasons; }
  }
}
