/** Idempotent execution on a node (node_agent/worker.py) behind its admission checks (node_agent/grpc_server.py). */
module Node {
  import opened Contracts
  import opened Etcd
  import opened SupplyChain

  const SCHEDULERS := "/distributed-ai/scheduler/"

  function IdentityKey(schedulerId: string): string { SCHEDULERS + schedulerId + "/identity" }

  /** What a scheduler sends. The payload travels encrypted; `signedBy` is the public key of the pair that signed it. */
  datatype Envelope = Envelope(
    taskId: string,
    nodeId: string,
    leaderLeaseId: int,
    issueTime: real,
    expiresAt: real,
    keyId: string,
    signedBy: string,
    modelId: string,
    modelDigest: Option<string>,
    payloadRef: string,
    idempotencyKey: string,
    timeoutMs: real)

  function RequestOf(e: Envelope): ExecutionRequest
  {
    ExecutionRequest(e.taskId, e.nodeId, e.modelId, e.modelDigest, e.payloadRef, e.idempotencyKey, e.timeoutMs)
  }

  datatype Profile = Profile(nodeId: string, nodeClass: NodeClass, isOffline: bool, failExecution: bool)

  datatype ExecutionError = NodeUnavailable | Artifact(cause: ArtifactError)

  type Cache = map<string, ExecutionResult>

  type Outcome = Result<ExecutionResult, ExecutionError>

  /** Which result a fresh execution under `record` produces; the duration and the output are the workload's own. */
  function Fresh(p: Profile, record: ApprovedArtifactRecord, request: ExecutionRequest, elapsedMs: real, output: string)
    : ExecutionResult
  {
    ExecutionResult(request.taskId, p.nodeId, p.nodeClass, elapsedMs, record.digest, output, false,
      request.idempotencyKey)
  }

  function Execute(p: Profile, cache: Cache, kv: map<string, Value>, verifies: SignatureCheck,
    request: ExecutionRequest, elapsedMs: real, output: string): (Cache, Outcome)
  {
    var key := request.idempotencyKey;
    if key in cache then (cache, Ok(cache[key].(cached := true)))
    else if p.isOffline || p.failExecution then (cache, Err(NodeUnavailable))
    else match Verify(kv, verifies, request.modelId, request.modelDigest)
      case Err(e) => (cache, Err(Artifact(e)))
      case Ok(record) =>
        var result := Fresh(p, record, request, elapsedMs, output);
        (cache[key := result], Ok(result))
  }

  /** What a worker does with a request, case by case: a known key is answered from the cache; otherwise a node that is
      not healthy fails, an artifact that is not approved is rejected, and only then the task runs and is remembered. */
  lemma ExecutesExactly(p: Profile, cache: Cache, kv: map<string, Value>, verifies: SignatureCheck,
    request: ExecutionRequest, elapsedMs: real, output: string)
    ensures
      var (after, outcome) := Execute(p, cache, kv, verifies, request, elapsedMs, output);
      var (key, healthy) := (request.idempotencyKey, !p.isOffline && !p.failExecution);
      && (key in cache ==> after == cache && outcome == Ok(cache[key].(cached := true)))
      && (key !in cache ==>
        && (outcome == Err(NodeUnavailable) <==> !healthy)
        && (outcome.Err? && outcome.error.Artifact? <==>
          healthy && !exists record :: Approves(kv, verifies, request.modelId, request.modelDigest, record))
        && (outcome.Ok? <==>
          healthy && exists record :: Approves(kv, verifies, request.modelId, request.modelDigest, record))
        && (outcome.Err? ==> after == cache)
        && (outcome.Ok? ==>
          && outcome.value.taskId == request.taskId && outcome.value.idempotencyKey == key && !outcome.value.cached
          && outcome.value.nodeId == p.nodeId && outcome.value.nodeClass == p.nodeClass
          && outcome.value.executionTimeMs == elapsedMs && outcome.value.output == output
          && (exists record ::
            (Approves(kv, verifies, request.modelId, request.modelDigest, record)
              && outcome.value.modelDigest == record.digest))
          && key in after && after[key] == outcome.value && after - {key} == cache - {key}))
  {
    var verified := Verify(kv, verifies, request.modelId, request.modelDigest);
    if verified.Ok? {
      VerifiesExactly(kv, verifies, request.modelId, request.modelDigest, verified.value);
    }
    forall record | Approves(kv, verifies, request.modelId, request.modelDigest, record)
      ensures verified == Ok(record)
    {
      VerifiesExactly(kv, verifies, request.modelId, request.modelDigest, record);
    }
  }

  class InferenceWorker {
    const nodeId: string
    const nodeClass: NodeClass
    var isOffline: bool
    var failExecution: bool
    var processed: Cache

    constructor (nodeId: string, nodeClass: NodeClass)
      ensures this.nodeId == nodeId && this.nodeClass == nodeClass && !isOffline && !failExecution && processed == map[]
    {
      this.nodeId, this.nodeClass := nodeId, nodeClass;
      isOffline, failExecution, processed := false, false, map[];
    }

    function View(): Profile
      reads this
    {
      Profile(nodeId, nodeClass, isOffline, failExecution)
    }

    method Run(etcd: SimulatedEtcdProvider, verifies: SignatureCheck, request: ExecutionRequest,
      elapsedMs: real, output: string) returns (outcome: Outcome)
      modifies this`processed
      ensures (processed, outcome)
        == Execute(View(), old(processed), etcd.kv, verifies, request, elapsedMs, output)
      // A failed attempt leaves the cache alone; a success is kept and, from then on, only marked as cached.
      ensures outcome.Err? ==> processed == old(processed)
      ensures outcome.Ok? ==>
        && request.idempotencyKey in processed
        && outcome.value == processed[request.idempotencyKey].(cached := outcome.value.cached)
      ensures request.idempotencyKey in old(processed) ==> processed == old(processed)
    {
      if request.idempotencyKey in processed {
        return Ok(processed[request.idempotencyKey].(cached := true));
      }
      if isOffline || failExecution {
        return Err(NodeUnavailable);
      }
      var approved := Verify(etcd.kv, verifies, request.modelId, request.modelDigest);
      if approved.Err? {
        return Err(Artifact(approved.error));
      }
      var result := Fresh(View(), approved.value, request, elapsedMs, output);
      processed := processed[request.idempotencyKey := result];
      return Ok(result);
    }
  }

  datatype Abort = PermissionDenied | DeadlineExceeded | FailedPrecondition

  /** Signature, expiry and lease, in this order; only the lease check touches the store. */
  function Admission(s: Store, e: Envelope, now: real): (Store, Option<Abort>)
  {
    if Missing(s.kv, IdentityKey(e.keyId)) || s.kv[IdentityKey(e.keyId)] != Plain(e.signedBy)
    then (s, Some(PermissionDenied))
    else if now > e.expiresAt then (s, Some(DeadlineExceeded))
    else
      var (s', ok) := CheckLease(s, e.leaderLeaseId, now);
      (s', if ok then None else Some(FailedPrecondition))
  }

  /** An envelope is admitted exactly if it is signed by the key that its scheduler published, in time, and under a
      lease that the store still holds valid; the first of these that fails names the abort. */
  lemma AdmitsExactly(s: Store, e: Envelope, now: real)
    ensures
      var code := Admission(s, e, now).1;
      var genuine := Lookup(s.kv, IdentityKey(e.keyId)) == Some(Plain(e.signedBy)) && e.signedBy != "";
      var leased := e.leaderLeaseId in s.leases && now <= s.leases[e.leaderLeaseId];
      && (code == None <==> genuine && now <= e.expiresAt && leased)
      && (code == Some(PermissionDenied) <==> !genuine)
      && (code == Some(DeadlineExceeded) <==> genuine && now > e.expiresAt)
      && (code == Some(FailedPrecondition) <==> genuine && now <= e.expiresAt && !leased)
    ensures
      var after := Admission(s, e, now).0;
      after.kv == s.kv && after.nextLease == s.nextLease
      && forall id :: id in after.leases ==> id in s.leases && after.leases[id] == s.leases[id]
  {
  }

  datatype Status = Success | Failed | Rejected

  datatype Payload = Payload(
    status: Status,
    executionTimeMs: real,
    output: string,
    error: Option<ExecutionError>,
    cached: bool,
    idempotencyKey: string,
    nodeClass: NodeClass,
    modelDigest: string)

  /** A rejected artifact and a failed execution are answered, not raised. */
  function PayloadOf(p: Profile, e: Envelope, outcome: Outcome): Payload
  {
    var asked := if e.modelDigest.Some? then e.modelDigest.value else "";
    match outcome
    case Ok(r) =>
      Payload(Success, r.executionTimeMs, r.output, None, r.cached, r.idempotencyKey, r.nodeClass, r.modelDigest)
    case Err(Artifact(cause)) =>
      Payload(Rejected, 0.0, "", Some(Artifact(cause)), false, e.idempotencyKey, p.nodeClass, asked)
    case Err(NodeUnavailable) =>
      Payload(Failed, 0.0, "", Some(NodeUnavailable), false, e.idempotencyKey, p.nodeClass, asked)
  }

  /** The status tells the three outcomes apart, and the answer always names the key of the request. */
  lemma AnswersExactly(p: Profile, e: Envelope, outcome: Outcome)
    ensures
      var payload := PayloadOf(p, e, outcome);
      && (payload.status == Success <==> outcome.Ok?)
      && (payload.status == Rejected <==> outcome.Err? && outcome.error.Artifact?)
      && (payload.status == Failed <==> outcome == Err(NodeUnavailable))
      && payload.error == (if outcome.Ok? then None else Some(outcome.error))
      && payload.idempotencyKey == (if outcome.Ok? then outcome.value.idempotencyKey else e.idempotencyKey)
      && payload.nodeClass == (if outcome.Ok? then outcome.value.nodeClass else p.nodeClass)
      && (payload.cached <==> outcome.Ok? && outcome.value.cached)
      && (outcome.Err? && e.modelDigest.Some? ==> payload.modelDigest == e.modelDigest.value)
      && (outcome.Err? ==> payload.output == "" && payload.executionTimeMs == 0.0)
  {
  }

  datatype Answer = Aborted(code: Abort) | Answered(taskId: string, nodeId: string, payload: Payload)

  class ExecutionServicer {
    const worker: InferenceWorker
    const etcd: SimulatedEtcdProvider

    constructor (worker: InferenceWorker, etcd: SimulatedEtcdProvider)
      ensures this.worker == worker && this.etcd == etcd
    {
      this.worker, this.etcd := worker, etcd;
    }

    method ExecuteTask(e: Envelope, now: real, verifies: SignatureCheck, elapsedMs: real, output: string)
      returns (answer: Answer)
      modifies etcd, worker`processed
      ensures etcd.View() == Admission(old(etcd.View()), e, now).0
      ensures match Admission(old(etcd.View()), e, now).1
        case Some(code) => answer == Aborted(code) && worker.processed == old(worker.processed)
        case None =>
          var (cache, outcome) :=
            Execute(worker.View(), old(worker.processed), old(etcd.kv), verifies, RequestOf(e), elapsedMs, output);
          worker.processed == cache && answer == Answered(e.taskId, e.nodeId, PayloadOf(worker.View(), e, outcome))
    {
      var identity := etcd.Get(IdentityKey(e.keyId));
      if identity == None || identity == Some(Plain("")) || identity != Some(Plain(e.signedBy)) {
        return Aborted(PermissionDenied);
      }
      if now > e.expiresAt {
        return Aborted(DeadlineExceeded);
      }
      var leaseOk := etcd.IsLeaseValid(e.leaderLeaseId, now);
      if !leaseOk {
        return Aborted(FailedPrecondition);
      }
      var outcome := worker.Run(etcd, verifies, RequestOf(e), elapsedMs, output);
      return Answered(e.taskId, e.nodeId, PayloadOf(worker.View(), e, outcome));
    }
  }
}
