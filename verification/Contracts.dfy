/** Value types shared by the components (contracts/models.py). */
module Contracts {

  datatype Option<+T> = None | Some(value: T)

  datatype Result<+T, +E> = Ok(value: T) | Err(error: E)

  datatype NodeClass = Edge | Cloud

  datatype ArtifactProvenance = ArtifactProvenance(
    artifactName: string,
    digest: string,
    builderIdentity: string,
    sourceRepo: string,
    commitSha: string,
    buildTimestamp: real,
    sbomDigest: string,
    vulnerabilities: map<string, int>)

  datatype ApprovedArtifactRecord = ApprovedArtifactRecord(
    modelId: string,
    digest: string,
    provenance: ArtifactProvenance,
    signature: string,
    signingKeyId: string,
    revoked: bool)

  datatype SupplyChainPolicy = SupplyChainPolicy(
    requireImmutableDigest: bool,
    requireSignature: bool,
    allowedBuilders: seq<string>,
    maxAllowedCriticalVulns: int,
    maxAllowedHighVulns: int)

  /** The part of a client task that dispatch carries to a node. */
  datatype TaskRequest = TaskRequest(
    taskId: string,
    modelId: string,
    modelDigest: Option<string>,
    payloadRef: string,
    maxLatencyMs: real,
    idempotencyKey: string)

  datatype ExecutionRequest = ExecutionRequest(
    taskId: string,
    nodeId: string,
    modelId: string,
    modelDigest: Option<string>,
    payloadRef: string,
    idempotencyKey: string,
    timeoutMs: real)

  /** A successful run as a worker reports it; failures are `ExecutionError`s. */
  datatype ExecutionResult = ExecutionResult(
    taskId: string,
    nodeId: string,
    nodeClass: NodeClass,
    executionTimeMs: real,
    modelDigest: string,
    output: string,
    cached: bool,
    idempotencyKey: string)
}
