/** Hard constraints before scoring (decision_engine/filter.py, telemetry/validator.py). */
module Filter {
  import opened Contracts
  import Text

  datatype Health = Healthy | Degraded | Unreachable

  datatype Assurance = Standard | HighAssurance

  datatype SlaClass = RealTime | Interactive | Batch

  datatype Snapshot = Snapshot(
    nodeId: string,
    rttMs: real,
    bandwidthMbps: real,
    cpuPct: real,
    gpuPct: real,
    queueDepth: int,
    cost: real,
    health: Health,
    heartbeatAgeMs: real,
    zones: seq<string>,
    gatewayRttMs: Option<real>,
    assurance: Assurance)

  datatype Demand = Demand(slaClass: SlaClass, dataResidency: Option<string>, requiredAssurance: Assurance)

  datatype Limits = Limits(stalenessMs: real, maxQueueDepth: int, maxComputePct: real, maxDivergencePct: real)

  const DEFAULT_LIMITS := Limits(3000.0, 50, 98.0, 50.0)

  function Max(a: real, b: real): real { if a >= b then a else b }

  function Compute(n: Snapshot): real { Max(n.cpuPct, n.gpuPct) }

  function CostCeiling(c: SlaClass): real
  {
    match c
    case RealTime => 10.0
    case Interactive => 2.0
    case Batch => 0.5
  }

  datatype Reason =
    | NodeUnreachable
    | StaleTelemetry(ageMs: real)
    | InvalidReportedRtt
    | DivergenceExceeded(pct: real)
    | ResidencyMismatch(zones: seq<string>)
    | QueueSaturated(depth: int)
    | ComputeExhausted(pct: real)
    | CostCeilingExceeded(cost: real)
    | InsufficientAssurance
    | AllCandidatesFailed

  function Divergence(reported: real, observed: real): real
  {
    (if observed >= reported then observed - reported else reported - observed) / Max(reported, 1.0) * 100.0
  }

  function CrossCheck(l: Limits, n: Snapshot): Option<Reason>
  {
    if n.gatewayRttMs.None? then None
    else if n.rttMs <= 0.0 then Some(InvalidReportedRtt)
    else
      var d := Divergence(n.rttMs, n.gatewayRttMs.value);
      if d > l.maxDivergencePct then Some(DivergenceExceeded(d)) else None
  }

  predicate ResidencyDemanded(d: Demand)
  {
    d.dataResidency.Some? && Text.Lower(d.dataResidency.value) !in {"none", "any", ""}
  }

  predicate Provides(zones: seq<string>, zone: string)
  {
    exists i :: 0 <= i < |zones| && Text.Lower(zones[i]) == zone
  }

  /** The first constraint that the node fails, in the order of the checks. */
  function Failure(l: Limits, d: Demand, n: Snapshot): Option<Reason>
  {
    if n.health.Unreachable? then Some(NodeUnreachable)
    else if n.heartbeatAgeMs > l.stalenessMs then Some(StaleTelemetry(n.heartbeatAgeMs))
    else if CrossCheck(l, n).Some? then CrossCheck(l, n)
    else if ResidencyDemanded(d) && !Provides(n.zones, Text.Lower(d.dataResidency.value))
    then Some(ResidencyMismatch(n.zones))
    else if n.queueDepth >= l.maxQueueDepth then Some(QueueSaturated(n.queueDepth))
    else if Compute(n) >= l.maxComputePct then Some(ComputeExhausted(Compute(n)))
    else if n.cost > CostCeiling(d.slaClass) then Some(CostCeilingExceeded(n.cost))
    else if d.requiredAssurance.HighAssurance? && !n.assurance.HighAssurance? then Some(InsufficientAssurance)
    else None
  }

  predicate Passes(l: Limits, d: Demand, n: Snapshot)
  {
    Failure(l, d, n) == None
  }

  /** The reported round-trip time is off by more than the allowed percentage of itself, or of a millisecond if it is
      less. */
  predicate Diverges(l: Limits, reported: real, observed: real)
  {
    var apart := if observed >= reported then observed - reported else reported - observed;
    apart * 100.0 > l.maxDivergencePct * (if reported >= 1.0 then reported else 1.0)
  }

  lemma ShareExceeds(part: real, whole: real, pct: real)
    requires whole > 0.0
    ensures part / whole * 100.0 > pct <==> part * 100.0 > pct * whole
  {
    var q := part / whole;
    assert q * whole == part;
    if q * 100.0 > pct {
      assert (q * 100.0 - pct) * whole > 0.0;
    } else {
      assert (pct - q * 100.0) * whole >= 0.0;
    }
  }

  lemma DivergenceIsShare(l: Limits, reported: real, observed: real)
    ensures Divergence(reported, observed) > l.maxDivergencePct <==> Diverges(l, reported, observed)
  {
    var apart := if observed >= reported then observed - reported else reported - observed;
    ShareExceeds(apart, Max(reported, 1.0), l.maxDivergencePct);
  }

  /** The hard constraints, numbered in the order in which they are checked. */
  ghost predicate Violates(l: Limits, d: Demand, n: Snapshot, constraint: nat)
  {
    match constraint
    case 1 => n.health == Unreachable
    case 2 => n.heartbeatAgeMs > l.stalenessMs
    case 3 => n.gatewayRttMs.Some? && (n.rttMs <= 0.0 || Diverges(l, n.rttMs, n.gatewayRttMs.value))
    case 4 =>
      && d.dataResidency.Some? && Text.Lower(d.dataResidency.value) !in {"none", "any", ""}
      && forall i :: 0 <= i < |n.zones| ==> Text.Lower(n.zones[i]) != Text.Lower(d.dataResidency.value)
    case 5 => n.queueDepth >= l.maxQueueDepth
    case 6 => n.cpuPct >= l.maxComputePct || n.gpuPct >= l.maxComputePct
    case 7 =>
      || (d.slaClass == RealTime && n.cost > 10.0)
      || (d.slaClass == Interactive && n.cost > 2.0)
      || (d.slaClass == Batch && n.cost > 0.5)
    case 8 => d.requiredAssurance == HighAssurance && n.assurance != HighAssurance
    case _ => false
  }

  /** What passing means for the demand, whatever the order of the checks. */
  lemma PassingNodes(l: Limits, d: Demand, n: Snapshot)
    ensures Passes(l, d, n) <==> forall k :: 1 <= k <= 8 ==> !Violates(l, d, n, k)
  {
    if n.gatewayRttMs.Some? {
      DivergenceIsShare(l, n.rttMs, n.gatewayRttMs.value);
    }
    if forall k :: 1 <= k <= 8 ==> !Violates(l, d, n, k) {
      assert !Violates(l, d, n, 1) && !Violates(l, d, n, 2) && !Violates(l, d, n, 3) && !Violates(l, d, n, 4);
      assert !Violates(l, d, n, 5) && !Violates(l, d, n, 6) && !Violates(l, d, n, 7) && !Violates(l, d, n, 8);
    }
  }

  /** Which constraint a reason is about, and whether it quotes the node rightly. */
  ghost predicate Explains(reason: Reason, n: Snapshot, constraint: nat)
  {
    match reason
    case NodeUnreachable => constraint == 1
    case StaleTelemetry(ageMs) => constraint == 2 && ageMs == n.heartbeatAgeMs
    case InvalidReportedRtt => constraint == 3 && n.rttMs <= 0.0
    case DivergenceExceeded(_) => constraint == 3 && n.rttMs > 0.0
    case ResidencyMismatch(zones) => constraint == 4 && zones == n.zones
    case QueueSaturated(depth) => constraint == 5 && depth == n.queueDepth
    case ComputeExhausted(pct) => constraint == 6 && pct in {n.cpuPct, n.gpuPct} && n.cpuPct <= pct && n.gpuPct <= pct
    case CostCeilingExceeded(cost) => constraint == 7 && cost == n.cost
    case InsufficientAssurance => constraint == 8
    case AllCandidatesFailed => false
  }

  /** The reason given is about the first constraint that the node violates. */
  lemma FirstViolationIsReported(l: Limits, d: Demand, n: Snapshot) returns (constraint: nat)
    requires !Passes(l, d, n)
    ensures Explains(Failure(l, d, n).value, n, constraint) && Violates(l, d, n, constraint)
    ensures forall k :: 1 <= k < constraint ==> !Violates(l, d, n, k)
  {
    if n.gatewayRttMs.Some? {
      DivergenceIsShare(l, n.rttMs, n.gatewayRttMs.value);
    }
    constraint := match Failure(l, d, n).value
      case NodeUnreachable => 1
      case StaleTelemetry(_) => 2
      case InvalidReportedRtt => 3
      case DivergenceExceeded(_) => 3
      case ResidencyMismatch(_) => 4
      case QueueSaturated(_) => 5
      case ComputeExhausted(_) => 6
      case CostCeilingExceeded(_) => 7
      case InsufficientAssurance => 8
      case AllCandidatesFailed => 0;
  }

  function Survivors(l: Limits, d: Demand, candidates: seq<Snapshot>): (r: seq<Snapshot>)
    ensures forall n :: n in r <==> n in candidates && Passes(l, d, n)
  {
    if candidates == [] then []
    else
      var (before, last) := (candidates[..|candidates| - 1], candidates[|candidates| - 1]);
      assert candidates == before + [last];
      Survivors(l, d, before) + if Passes(l, d, last) then [last] else []
  }

  /** Candidates pass or fail one by one, and keep their order. */
  lemma {:induction false} SurvivorsInOrder(l: Limits, d: Demand, a: seq<Snapshot>, b: seq<Snapshot>)
    ensures Survivors(l, d, a + b) == Survivors(l, d, a) + Survivors(l, d, b)
  {
    if b == [] {
      assert a + b == a;
    } else {
      assert (a + b)[..|a + b| - 1] == a + b[..|b| - 1];
      SurvivorsInOrder(l, d, a, b[..|b| - 1]);
    }
  }

  function Rejections(l: Limits, d: Demand, candidates: seq<Snapshot>): map<string, Reason>
  {
    if candidates == [] then map[]
    else
      var (before, last) := (candidates[..|candidates| - 1], candidates[|candidates| - 1]);
      var rejected := Rejections(l, d, before);
      if Passes(l, d, last) then rejected else rejected[last.nodeId := Failure(l, d, last).value]
  }

  /** Some snapshot of this id fails a check, and that is the reason. */
  ghost predicate FailsBy(l: Limits, d: Demand, candidates: seq<Snapshot>, id: string, reason: Reason)
  {
    exists n :: n in candidates && n.nodeId == id && Failure(l, d, n) == Some(reason)
  }

  lemma FailsByMore(l: Limits, d: Demand, before: seq<Snapshot>, last: Snapshot, id: string, reason: Reason)
    requires FailsBy(l, d, before, id, reason) || (last.nodeId == id && Failure(l, d, last) == Some(reason))
    ensures FailsBy(l, d, before + [last], id, reason)
  {
    assert last in before + [last];
  }

  /** Every node that fails is reported, nobody else is, and the reason is the first check that it fails (for
      an id that occurs more than once: that one of its snapshots fails). */
  lemma {:induction false} RejectionsAreTheFailures(l: Limits, d: Demand, candidates: seq<Snapshot>)
    ensures
      var rejected := Rejections(l, d, candidates);
      && (forall n :: n in candidates && !Passes(l, d, n) ==> n.nodeId in rejected)
      && (forall id :: id in rejected ==> FailsBy(l, d, candidates, id, rejected[id]))
  {
    if candidates != [] {
      var (before, last) := (candidates[..|candidates| - 1], candidates[|candidates| - 1]);
      var (earlier, rejected) := (Rejections(l, d, before), Rejections(l, d, candidates));
      assert candidates == before + [last];
      RejectionsAreTheFailures(l, d, before);
      forall id | id in rejected ensures FailsBy(l, d, candidates, id, rejected[id]) {
        if Passes(l, d, last) || id != last.nodeId {
          assert id in earlier && FailsBy(l, d, before, id, earlier[id]);
        }
        FailsByMore(l, d, before, last, id, rejected[id]);
      }
    }
  }

  method FilterCandidates(l: Limits, d: Demand, candidates: seq<Snapshot>)
    returns (passed: seq<Snapshot>, rejected: map<string, Reason>)
    ensures passed == Survivors(l, d, candidates) && rejected == Rejections(l, d, candidates)
  {
    passed, rejected := [], map[];
    var i := 0;
    while i < |candidates|
      invariant 0 <= i <= |candidates|
      invariant passed == Survivors(l, d, candidates[..i]) && rejected == Rejections(l, d, candidates[..i])
    {
      var node := candidates[i];
      i := i + 1;
      assert candidates[..i][..i - 1] == candidates[..i - 1];
      if node.health == Unreachable {
        rejected := rejected[node.nodeId := NodeUnreachable];
        continue;
      }
      if node.heartbeatAgeMs > l.stalenessMs {
        rejected := rejected[node.nodeId := StaleTelemetry(node.heartbeatAgeMs)];
        continue;
      }
      var check := CrossCheck(l, node);
      if check.Some? {
        rejected := rejected[node.nodeId := check.value];
        continue;
      }
      if ResidencyDemanded(d) {
        if !Provides(node.zones, Text.Lower(d.dataResidency.value)) {
          rejected := rejected[node.nodeId := ResidencyMismatch(node.zones)];
          continue;
        }
      }
      if node.queueDepth >= l.maxQueueDepth {
        rejected := rejected[node.nodeId := QueueSaturated(node.queueDepth)];
        continue;
      }
      if Compute(node) >= l.maxComputePct {
        rejected := rejected[node.nodeId := ComputeExhausted(Compute(node))];
        continue;
      }
      if node.cost > CostCeiling(d.slaClass) {
        rejected := rejected[node.nodeId := CostCeilingExceeded(node.cost)];
        continue;
      }
      if d.requiredAssurance.HighAssurance? {
        if !node.assurance.HighAssurance? {
          rejected := rejected[node.nodeId := InsufficientAssurance];
          continue;
        }
      }
      passed := passed + [node];
    }
    assert candidates[..i] == candidates;
  }
}
