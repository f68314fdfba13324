/** Records of the control plane: worker and job resource contracts, durable
    worker and job rows, and the requests callers may build.  Field checks made
    by the constructors of the original records appear as `Valid` predicates;
    payloads, results, errors and metadata values are opaque strings that are only
    ever compared for equality.  Time is an integer count of ticks. */
module Contracts {

  datatype Option<+T> = None | Some(value: T)

  type Opaque = string

  datatype AcceleratorDevice = AcceleratorDevice(
    uuid: string, memoryMb: int, computeCapability: Option<string>, deviceClass: Option<string>)
  {
    predicate Valid() { uuid != "" && memoryMb > 0 }
  }

  function SumMemory(devices: seq<AcceleratorDevice>): int {
    if devices == [] then 0 else devices[0].memoryMb + SumMemory(devices[1..])
  }

  datatype ResourceShape = ResourceShape(gpuCount: int, totalVramMb: int, maxSingleGpuVramMb: int) {
    predicate Valid() {
      if gpuCount == 0 then totalVramMb == 0 && maxSingleGpuVramMb == 0
      else gpuCount > 0 && 0 < maxSingleGpuVramMb <= totalVramMb
    }
  }

  datatype WorkerSpec = WorkerSpec(
    workerId: string, workerClass: string, resources: ResourceShape, gpuUuids: seq<string>,
    accelerators: seq<AcceleratorDevice>, capabilities: set<string>, labels: map<string, string>)
  {
    predicate Valid() {
      && workerId != "" && workerClass != ""
      && resources.Valid()
      && |gpuUuids| == resources.gpuCount
      && "" !in gpuUuids
      && (forall i, j :: 0 <= i < j < |gpuUuids| ==> gpuUuids[i] != gpuUuids[j])
      && "" !in capabilities
      && (accelerators != [] ==>
            && |accelerators| == |gpuUuids|
            && (forall i :: 0 <= i < |accelerators| ==> accelerators[i].Valid() && accelerators[i].uuid == gpuUuids[i])
            && SumMemory(accelerators) == resources.totalVramMb
            && (forall i :: 0 <= i < |accelerators| ==> accelerators[i].memoryMb <= resources.maxSingleGpuVramMb)
            && (exists i :: 0 <= i < |accelerators| && accelerators[i].memoryMb == resources.maxSingleGpuVramMb))
    }
  }

  /** The GPU identities a spec declares. */
  function Gpus(spec: WorkerSpec): set<string> {
    set g | g in spec.gpuUuids
  }

  datatype JobRequirements = JobRequirements(
    workerClass: Option<string>, requiredCapabilities: set<string>, requiredLabels: map<string, string>,
    requiredGpuUuids: set<string>, minGpuCount: int, minTotalVramMb: int, minSingleGpuVramMb: int)
  {
    predicate Valid() {
      && workerClass != Some("")
      && "" !in requiredCapabilities
      && "" !in requiredGpuUuids
      && (forall k :: k in requiredLabels ==> k != "" && requiredLabels[k] != "")
      && minGpuCount >= 0 && minTotalVramMb >= 0 && minSingleGpuVramMb >= 0
    }
  }

  datatype JobStatus = Queued | Running | Succeeded | Failed | Cancelled {
    predicate Terminal() { this.Succeeded? || this.Failed? || this.Cancelled? }
  }

  datatype WorkerState = Online | Draining | Offline

  datatype WorkerRegistration = WorkerRegistration(
    spec: WorkerSpec, maxConcurrency: int, metadata: map<string, Opaque>)
  {
    predicate Valid() { spec.Valid() && maxConcurrency >= 1 }
  }

  datatype WorkerHeartbeat = WorkerHeartbeat(
    state: Option<WorkerState>, activeJobId: Option<string>, leaseToken: Option<string>,
    metadata: map<string, Opaque>)
  {
    /** The heartbeat names a lease to renew. */
    predicate Leased() { activeJobId.Some? || leaseToken.Some? }

    /** Job identity and token come together and neither is the empty string. */
    predicate LeaseComplete() {
      activeJobId.Some? && leaseToken.Some? && activeJobId.value != "" && leaseToken.value != ""
    }
  }

  datatype WorkerRecord = WorkerRecord(
    spec: WorkerSpec, maxConcurrency: int, state: WorkerState, activeJobs: int,
    registeredAt: int, lastSeenAt: int, metadata: map<string, Opaque>)

  datatype JobSubmission = JobSubmission(
    capability: string, payload: Opaque, requirements: JobRequirements, priority: int,
    maxAttempts: int, idempotencyKey: Option<string>, availableAt: Option<int>)
  {
    predicate Valid() {
      && capability != "" && requirements.Valid() && maxAttempts >= 1
      && idempotencyKey != Some("")
    }
  }

  /** The structured error stored on a job: its content and the retry verdict. */
  datatype Failure = Failure(message: Opaque, retryable: bool)

  datatype JobRecord = JobRecord(
    jobId: string, capability: string, payload: Opaque, requirements: JobRequirements,
    priority: int, sequence: int, status: JobStatus, attempts: int, maxAttempts: int,
    idempotencyKey: Option<string>, createdAt: int, availableAt: int, updatedAt: int,
    assignedWorker: Option<string>, leaseToken: Option<string>, leaseExpiresAt: Option<int>,
    startedAt: Option<int>, finishedAt: Option<int>, result: Option<Opaque>, error: Option<Failure>)

  /** Control deadlines, both required to be positive by the repository constructors. */
  datatype Config = Config(workerTtl: int, lease: int) {
    predicate Valid() { workerTtl >= 1 && lease >= 1 }
  }
}
