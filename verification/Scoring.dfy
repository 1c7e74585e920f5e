/** Min-max normalisation, weighted scores and the ranking (decision_engine/normalizer.py, scorer.py). */
module Scoring {
  import opened Filter

  // ---- Normalisation

  const SPREAD_CUTOFF := 0.000000001

  ghost predicate IsLeast(raw: map<string, real>, v: real)
  {
    (exists id :: id in raw && raw[id] == v) && forall id :: id in raw ==> v <= raw[id]
  }

  ghost predicate IsGreatest(raw: map<string, real>, v: real)
  {
    (exists id :: id in raw && raw[id] == v) && forall id :: id in raw ==> raw[id] <= v
  }

  method MinMax(raw: map<string, real>) returns (low: real, high: real)
    requires raw != map[]
    ensures IsLeast(raw, low) && IsGreatest(raw, high)
  {
    var ids := raw.Keys;
    var id :| id in ids;
    ids := ids - {id};
    low, high := raw[id], raw[id];
    while ids != {}
      invariant ids <= raw.Keys
      invariant exists i :: i in raw.Keys - ids && raw[i] == low
      invariant exists i :: i in raw.Keys - ids && raw[i] == high
      invariant forall i :: i in raw.Keys - ids ==> low <= raw[i] <= high
      decreases |ids|
    {
      id :| id in ids;
      ids := ids - {id};
      low := if raw[id] < low then raw[id] else low;
      high := if raw[id] > high then raw[id] else high;
      assert id in raw.Keys - ids;
    }
  }

  lemma {:induction false} Extremes(raw: map<string, real>) returns (low: real, high: real)
    requires raw != map[]
    ensures IsLeast(raw, low) && IsGreatest(raw, high)
    decreases |raw.Keys|
  {
    var id :| id in raw;
    var rest := raw - {id};
    if rest == map[] {
      low, high := raw[id], raw[id];
      assert forall i :: i in raw ==> i == id || i in rest;
    } else {
      assert rest.Keys == raw.Keys - {id};
      low, high := Extremes(rest);
      var (l, h) := (low, high);
      assert forall i :: i in raw ==> i == id || i in rest;
      low := if raw[id] < l then raw[id] else l;
      high := if raw[id] > h then raw[id] else h;
    }
  }

  ghost function Least(raw: map<string, real>): (v: real)
    requires raw != map[]
    ensures IsLeast(raw, v)
  {
    assert exists v :: IsLeast(raw, v) by {
      var low, high := Extremes(raw);
    }
    var v :| IsLeast(raw, v);
    v
  }

  ghost function Greatest(raw: map<string, real>): (v: real)
    requires raw != map[]
    ensures IsGreatest(raw, v)
  {
    assert exists v :: IsGreatest(raw, v) by {
      var low, high := Extremes(raw);
    }
    var v :| IsGreatest(raw, v);
    v
  }

  function Rescale(v: real, low: real, high: real): real
  {
    if high - low <= SPREAD_CUTOFF then 0.0 else (v - low) / (high - low)
  }

  ghost function Normalized(raw: map<string, real>): map<string, real>
  {
    if raw == map[] then map[] else map id | id in raw :: Rescale(raw[id], Least(raw), Greatest(raw))
  }

  method NormalizeMetric(raw: map<string, real>) returns (r: map<string, real>)
    ensures r == Normalized(raw)
  {
    if raw == map[] {
      return map[];
    }
    var low, high := MinMax(raw);
    assert low == Least(raw) && high == Greatest(raw);
    r := map id | id in raw :: Rescale(raw[id], low, high);
  }

  lemma DivideMonotone(a: real, b: real, d: real)
    requires a <= b && d > 0.0
    ensures a / d <= b / d
  {
  }

  lemma DivideSelf(d: real)
    requires d > 0.0
    ensures d / d == 1.0 && 0.0 / d == 0.0
  {
    var q := d / d;
    assert q * d == d;
  }

  /** Normalised values lie between 0 and 1 and keep the order of the raw values. */
  lemma NormalizedInOrder(raw: map<string, real>, a: string, b: string)
    requires a in raw && b in raw && raw[a] <= raw[b]
    ensures a in Normalized(raw) && b in Normalized(raw)
    ensures 0.0 <= Normalized(raw)[a] <= Normalized(raw)[b] <= 1.0
  {
    var (low, high) := (Least(raw), Greatest(raw));
    if high - low > SPREAD_CUTOFF {
      var d := high - low;
      DivideMonotone(0.0, raw[a] - low, d);
      DivideMonotone(raw[a] - low, raw[b] - low, d);
      DivideMonotone(raw[b] - low, d, d);
      DivideSelf(d);
    }
  }

  datatype Metrics = Metrics(latency: real, bandwidth: real, compute: real, queue: real, cost: real)

  /** The reciprocal is taken because more bandwidth is better. */
  function RawMetrics(n: Snapshot): Metrics
  {
    Metrics(n.rttMs, 1.0 / Max(n.bandwidthMbps, 0.001), Compute(n), n.queueDepth as real, n.cost)
  }

  /** What a dictionary keyed by node id keeps of a list: the last snapshot of each node. */
  function Latest(nodes: seq<Snapshot>): map<string, Snapshot>
  {
    if nodes == [] then map[]
    else Latest(nodes[..|nodes| - 1])[nodes[|nodes| - 1].nodeId := nodes[|nodes| - 1]]
  }

  function Raw(nodes: map<string, Snapshot>): map<string, Metrics>
  {
    map id | id in nodes :: RawMetrics(nodes[id])
  }

  datatype Dimension = Latency | Bandwidth | Utilisation | Queue | Cost

  function Pick(m: Metrics, d: Dimension): real
  {
    match d
    case Latency => m.latency
    case Bandwidth => m.bandwidth
    case Utilisation => m.compute
    case Queue => m.queue
    case Cost => m.cost
  }

  function Column(raw: map<string, Metrics>, d: Dimension): map<string, real>
  {
    map id | id in raw :: Pick(raw[id], d)
  }

  function Combine(latency: map<string, real>, bandwidth: map<string, real>, compute: map<string, real>,
    queue: map<string, real>, cost: map<string, real>): map<string, Metrics>
    requires latency.Keys == bandwidth.Keys == compute.Keys == queue.Keys == cost.Keys
  {
    map id | id in latency :: Metrics(latency[id], bandwidth[id], compute[id], queue[id], cost[id])
  }

  ghost function NormalizedMetrics(raw: map<string, Metrics>): map<string, Metrics>
  {
    Combine(Normalized(Column(raw, Latency)), Normalized(Column(raw, Bandwidth)), Normalized(Column(raw, Utilisation)),
      Normalized(Column(raw, Queue)), Normalized(Column(raw, Cost)))
  }

  ghost function Pool(nodes: seq<Snapshot>): map<string, Metrics>
  {
    NormalizedMetrics(Raw(Latest(nodes)))
  }

  method CollectRaw(candidates: seq<Snapshot>) returns (raw: map<string, Metrics>)
    ensures raw == Raw(Latest(candidates))
  {
    raw := map[];
    var i := 0;
    while i < |candidates|
      invariant 0 <= i <= |candidates| && raw == Raw(Latest(candidates[..i]))
    {
      assert candidates[..i + 1][..i] == candidates[..i];
      raw := raw[candidates[i].nodeId := RawMetrics(candidates[i])];
      i := i + 1;
    }
    assert candidates[..i] == candidates;
  }

  lemma ColumnKeys(nodes: seq<Snapshot>, d: Dimension)
    ensures Normalized(Column(Raw(Latest(nodes)), d)).Keys == Latest(nodes).Keys
  {
  }

  lemma {:induction false} LatestHas(nodes: seq<Snapshot>, i: nat)
    requires i < |nodes|
    ensures nodes[i].nodeId in Latest(nodes)
  {
    if i < |nodes| - 1 {
      LatestHas(nodes[..|nodes| - 1], i);
    }
  }

  method FillPool(candidates: seq<Snapshot>, latency: map<string, real>, bandwidth: map<string, real>,
    compute: map<string, real>, queue: map<string, real>, cost: map<string, real>)
    returns (pool: map<string, Metrics>)
    requires latency.Keys == bandwidth.Keys == compute.Keys == queue.Keys == cost.Keys == Latest(candidates).Keys
    ensures pool == Combine(latency, bandwidth, compute, queue, cost)
  {
    pool := map[];
    var i := 0;
    while i < |candidates|
      invariant 0 <= i <= |candidates| && pool.Keys == Latest(candidates[..i]).Keys <= latency.Keys
      invariant forall id :: id in pool ==>
        pool[id] == Metrics(latency[id], bandwidth[id], compute[id], queue[id], cost[id])
    {
      assert candidates[..i + 1][..i] == candidates[..i];
      var id := candidates[i].nodeId;
      LatestHas(candidates, i);
      pool := pool[id := Metrics(latency[id], bandwidth[id], compute[id], queue[id], cost[id])];
      i := i + 1;
    }
    assert candidates[..i] == candidates;
  }

  method NormalizeCandidates(candidates: seq<Snapshot>) returns (pool: map<string, Metrics>)
    ensures pool == Pool(candidates)
  {
    var raw := CollectRaw(candidates);
    var latency := NormalizeMetric(Column(raw, Latency));
    var bandwidth := NormalizeMetric(Column(raw, Bandwidth));
    var compute := NormalizeMetric(Column(raw, Utilisation));
    var queue := NormalizeMetric(Column(raw, Queue));
    var cost := NormalizeMetric(Column(raw, Cost));
    forall d ensures Normalized(Column(raw, d)).Keys == Latest(candidates).Keys {
      ColumnKeys(candidates, d);
    }
    pool := FillPool(candidates, latency, bandwidth, compute, queue, cost);
  }

  // ---- What normalised values mean

  /** Differences up to a billionth count for nothing. */
  predicate InProportion(value: real, mine: real, low: real, high: real)
  {
    if high - low <= 0.000000001 then value == 0.0 else value * (high - low) == mine - low
  }

  lemma NormalizedInProportion(raw: map<string, real>, id: string)
    requires id in raw
    ensures InProportion(Normalized(raw)[id], raw[id], Least(raw), Greatest(raw))
  {
    var (low, high) := (Least(raw), Greatest(raw));
    if high - low > SPREAD_CUTOFF {
      var q := (raw[id] - low) / (high - low);
      assert q * (high - low) == raw[id] - low;
    }
  }

  type Quantity = Snapshot -> real

  ghost predicate LeastOf(nodes: map<string, Snapshot>, quantity: Quantity, v: real)
  {
    (exists id :: id in nodes && quantity(nodes[id]) == v) && forall id :: id in nodes ==> v <= quantity(nodes[id])
  }

  ghost predicate GreatestOf(nodes: map<string, Snapshot>, quantity: Quantity, v: real)
  {
    (exists id :: id in nodes && quantity(nodes[id]) == v) && forall id :: id in nodes ==> quantity(nodes[id]) <= v
  }

  /** Among these nodes, `value` says how far the quantity of `id` is from the least to the greatest one. */
  ghost predicate Proportional(nodes: map<string, Snapshot>, quantity: Quantity, id: string, value: real)
    requires id in nodes
  {
    exists low, high :: LeastOf(nodes, quantity, low) && GreatestOf(nodes, quantity, high)
      && InProportion(value, quantity(nodes[id]), low, high)
  }

  /** This dimension of the raw metrics is this quantity. */
  ghost predicate Measures(d: Dimension, quantity: Quantity)
  {
    forall n :: Pick(RawMetrics(n), d) == quantity(n)
  }

  lemma ExtremesAgree(nodes: map<string, Snapshot>, d: Dimension, quantity: Quantity, v: real)
    requires Measures(d, quantity)
    ensures IsLeast(Column(Raw(nodes), d), v) ==> LeastOf(nodes, quantity, v)
    ensures IsGreatest(Column(Raw(nodes), d), v) ==> GreatestOf(nodes, quantity, v)
  {
    var column := Column(Raw(nodes), d);
    assert forall id :: id in nodes ==> id in column && column[id] == quantity(nodes[id]);
  }

  lemma ColumnInProportion(nodes: map<string, Snapshot>, d: Dimension, quantity: Quantity, id: string)
    requires id in nodes && Measures(d, quantity)
    ensures Proportional(nodes, quantity, id, Normalized(Column(Raw(nodes), d))[id])
  {
    var column := Column(Raw(nodes), d);
    NormalizedInProportion(column, id);
    ExtremesAgree(nodes, d, quantity, Least(column));
    ExtremesAgree(nodes, d, quantity, Greatest(column));
    assert column[id] == quantity(nodes[id]);
  }

  // What the five dimensions measure.
  const ROUND_TRIP := (n: Snapshot) => n.rttMs
  const INVERSE_BANDWIDTH := (n: Snapshot) => 1.0 / (if n.bandwidthMbps > 0.001 then n.bandwidthMbps else 0.001)
  const UTILISATION := (n: Snapshot) => if n.cpuPct > n.gpuPct then n.cpuPct else n.gpuPct
  const QUEUE := (n: Snapshot) => n.queueDepth as real
  const COST := (n: Snapshot) => n.cost

  lemma DimensionsMeasure()
    ensures Measures(Latency, ROUND_TRIP) && Measures(Bandwidth, INVERSE_BANDWIDTH)
    ensures Measures(Utilisation, UTILISATION) && Measures(Queue, QUEUE) && Measures(Cost, COST)
  {
  }

  lemma MetricsAreColumns(raw: map<string, Metrics>, id: string)
    requires id in raw
    ensures id in NormalizedMetrics(raw)
    ensures NormalizedMetrics(raw)[id] == Metrics(Normalized(Column(raw, Latency))[id],
      Normalized(Column(raw, Bandwidth))[id], Normalized(Column(raw, Utilisation))[id],
      Normalized(Column(raw, Queue))[id], Normalized(Column(raw, Cost))[id])
  {
  }

  /** Each metric is in proportion to the round-trip time, the reciprocal of the bandwidth, the greater one of the
      utilisations, the queue and the cost. */
  ghost predicate AllProportional(nodes: map<string, Snapshot>, id: string, m: Metrics)
    requires id in nodes
  {
    && Proportional(nodes, ROUND_TRIP, id, m.latency) && Proportional(nodes, INVERSE_BANDWIDTH, id, m.bandwidth)
    && Proportional(nodes, UTILISATION, id, m.compute) && Proportional(nodes, QUEUE, id, m.queue)
    && Proportional(nodes, COST, id, m.cost)
  }

  lemma ColumnsInProportion(nodes: map<string, Snapshot>, id: string)
    requires id in nodes
    ensures Proportional(nodes, ROUND_TRIP, id, Normalized(Column(Raw(nodes), Latency))[id])
    ensures Proportional(nodes, INVERSE_BANDWIDTH, id, Normalized(Column(Raw(nodes), Bandwidth))[id])
    ensures Proportional(nodes, UTILISATION, id, Normalized(Column(Raw(nodes), Utilisation))[id])
    ensures Proportional(nodes, QUEUE, id, Normalized(Column(Raw(nodes), Queue))[id])
    ensures Proportional(nodes, COST, id, Normalized(Column(Raw(nodes), Cost))[id])
  {
    DimensionsMeasure();
    ColumnInProportion(nodes, Latency, ROUND_TRIP, id);
    ColumnInProportion(nodes, Bandwidth, INVERSE_BANDWIDTH, id);
    ColumnInProportion(nodes, Utilisation, UTILISATION, id);
    ColumnInProportion(nodes, Queue, QUEUE, id);
    ColumnInProportion(nodes, Cost, COST, id);
  }

  /** So it is for every node in a pool of any size. */
  lemma PoolInProportion(nodes: seq<Snapshot>, id: string)
    requires id in Latest(nodes)
    ensures id in Pool(nodes) && AllProportional(Latest(nodes), id, Pool(nodes)[id])
  {
    MetricsAreColumns(Raw(Latest(nodes)), id);
    ColumnsInProportion(Latest(nodes), id);
  }

  /** Of several snapshots of a node the last one counts. */
  lemma {:induction false} LastSnapshotCounts(nodes: seq<Snapshot>, i: nat)
    requires i < |nodes| && forall k :: i < k < |nodes| ==> nodes[k].nodeId != nodes[i].nodeId
    ensures nodes[i].nodeId in Latest(nodes) && Latest(nodes)[nodes[i].nodeId] == nodes[i]
  {
    if i < |nodes| - 1 {
      LastSnapshotCounts(nodes[..|nodes| - 1], i);
    }
  }

  // ---- Rounding to six places

  const MICRO := 1000000.0

  /** The nearest integer, an even one in the middle between two. */
  function Nearest(y: real): int
  {
    var f := y.Floor;
    var d := y - f as real;
    if d < 0.5 then f else if d > 0.5 then f + 1 else if f % 2 == 0 then f else f + 1
  }

  function Round6(x: real): real
  {
    Nearest(x * MICRO) as real / MICRO
  }

  lemma NearestIsNear(y: real)
    ensures -0.5 <= Nearest(y) as real - y <= 0.5
  {
  }

  lemma NearestMonotone(x: real, y: real)
    requires x <= y
    ensures Nearest(x) <= Nearest(y)
  {
    NearestIsNear(x);
    NearestIsNear(y);
  }

  /** No integer is nearer, and in the middle between two the even one is taken. */
  lemma NearestExactly(y: real, n: int)
    ensures Nearest(y) == n <==>
      -0.5 < n as real - y < 0.5 || (n % 2 == 0 && (n as real - y == 0.5 || n as real - y == -0.5))
  {
  }

  /** Scores have six places. */
  lemma Round6Exactly(x: real)
    ensures Round6(x) * 1000000.0 == Nearest(x * 1000000.0) as real
  {
  }

  lemma Round6Near(x: real)
    ensures -0.0000005 <= Round6(x) - x <= 0.0000005
  {
    NearestIsNear(x * MICRO);
    assert Round6(x) * MICRO == Nearest(x * MICRO) as real;
  }

  lemma Round6Monotone(x: real, y: real)
    requires x <= y
    ensures Round6(x) <= Round6(y)
  {
    NearestMonotone(x * MICRO, y * MICRO);
    DivideMonotone(Nearest(x * MICRO) as real, Nearest(y * MICRO) as real, MICRO);
  }

  // ---- Scores

  datatype Weights = Weights(lat: real, bw: real, cmp: real, queue: real, cost: real) {
    /** Enforced whenever weights are built (contracts/sla_profiles.py). */
    ghost predicate Valid()
    {
      && 0.0 <= lat <= 1.0 && 0.0 <= bw <= 1.0 && 0.0 <= cmp <= 1.0 && 0.0 <= queue <= 1.0 && 0.0 <= cost <= 1.0
      && -0.001 <= lat + bw + cmp + queue + cost - 1.0 <= 0.001
    }
  }

  function Weigh(weight: real, value: real): real { weight * value }

  function WeightedSum(m: Metrics, w: Weights): real
  {
    Weigh(w.lat, m.latency) + Weigh(w.bw, m.bandwidth) + Weigh(w.cmp, m.compute) + Weigh(w.queue, m.queue)
    + Weigh(w.cost, m.cost)
  }

  function Score(m: Metrics, w: Weights): real
  {
    Round6(WeightedSum(m, w))
  }

  ghost predicate InUnit(m: Metrics)
  {
    && 0.0 <= m.latency <= 1.0 && 0.0 <= m.bandwidth <= 1.0 && 0.0 <= m.compute <= 1.0
    && 0.0 <= m.queue <= 1.0 && 0.0 <= m.cost <= 1.0
  }

  ghost predicate NoWorse(a: Metrics, b: Metrics)
  {
    && a.latency <= b.latency && a.bandwidth <= b.bandwidth && a.compute <= b.compute
    && a.queue <= b.queue && a.cost <= b.cost
  }

  lemma WeighMonotone(weight: real, x: real, y: real)
    requires weight >= 0.0 && x <= y
    ensures Weigh(weight, x) <= Weigh(weight, y)
  {
  }

  lemma WeightedSumMonotone(a: Metrics, b: Metrics, w: Weights)
    requires w.Valid() && NoWorse(a, b)
    ensures WeightedSum(a, w) <= WeightedSum(b, w)
  {
    WeighMonotone(w.lat, a.latency, b.latency);
    WeighMonotone(w.bw, a.bandwidth, b.bandwidth);
    WeighMonotone(w.cmp, a.compute, b.compute);
    WeighMonotone(w.queue, a.queue, b.queue);
    WeighMonotone(w.cost, a.cost, b.cost);
  }

  lemma ScoreInRange(m: Metrics, w: Weights)
    requires w.Valid() && InUnit(m)
    ensures 0.0 <= Score(m, w) <= 1.001
  {
    var (none, all) := (Metrics(0.0, 0.0, 0.0, 0.0, 0.0), Metrics(1.0, 1.0, 1.0, 1.0, 1.0));
    WeightedSumMonotone(none, m, w);
    WeightedSumMonotone(m, all, w);
    assert WeightedSum(none, w) == 0.0;
    assert WeightedSum(all, w) == w.lat + w.bw + w.cmp + w.queue + w.cost <= 1.001;
    Round6Monotone(0.0, WeightedSum(m, w));
    Round6Monotone(WeightedSum(m, w), 1.001);
    assert Nearest(0.0 * MICRO) == 0 && Nearest(1.001 * MICRO) == 1001000;
  }

  function Scores(pool: map<string, Metrics>, w: Weights): map<string, real>
  {
    map id | id in pool :: Score(pool[id], w)
  }

  lemma PoolOrder(raw: map<string, Metrics>, a: string, b: string)
    requires a in raw && b in raw && NoWorse(raw[a], raw[b])
    ensures a in NormalizedMetrics(raw) && b in NormalizedMetrics(raw)
    ensures NoWorse(NormalizedMetrics(raw)[a], NormalizedMetrics(raw)[b])
    ensures InUnit(NormalizedMetrics(raw)[a]) && InUnit(NormalizedMetrics(raw)[b])
  {
    NormalizedInOrder(Column(raw, Latency), a, b);
    NormalizedInOrder(Column(raw, Bandwidth), a, b);
    NormalizedInOrder(Column(raw, Utilisation), a, b);
    NormalizedInOrder(Column(raw, Queue), a, b);
    NormalizedInOrder(Column(raw, Cost), a, b);
  }

  /** Every score of every pool lies in [0, 1.001]; the upper end comes from the tolerance on the weights. */
  lemma ScoresInRange(nodes: seq<Snapshot>, w: Weights, id: string)
    requires w.Valid() && id in Latest(nodes)
    ensures id in Scores(Pool(nodes), w) && 0.0 <= Scores(Pool(nodes), w)[id] <= 1.001
  {
    PoolOrder(Raw(Latest(nodes)), id, id);
    ScoreInRange(Pool(nodes)[id], w);
  }

  /** No worse on latency, bandwidth, utilisation, queue and cost. */
  ghost predicate Dominates(a: Snapshot, b: Snapshot)
  {
    && a.rttMs <= b.rttMs && a.bandwidthMbps >= b.bandwidthMbps && Compute(a) <= Compute(b)
    && a.queueDepth <= b.queueDepth && a.cost <= b.cost
  }

  lemma DominanceInRaw(a: Snapshot, b: Snapshot)
    requires Dominates(a, b)
    ensures NoWorse(RawMetrics(a), RawMetrics(b))
  {
    var (x, y) := (Max(a.bandwidthMbps, 0.001), Max(b.bandwidthMbps, 0.001));
    assert x >= y > 0.0;
    assert 1.0 / x <= 1.0 / y by {
      var (u, v) := (1.0 / x, 1.0 / y);
      assert u * x == 1.0 && v * y == 1.0;
      if u > v {
        WeighMonotone(x, v, u);
        WeighMonotone(v, y, x);
      }
    }
  }

  lemma DominantScoresLower(nodes: seq<Snapshot>, w: Weights, a: string, b: string)
    requires w.Valid() && a in Latest(nodes) && b in Latest(nodes) && Dominates(Latest(nodes)[a], Latest(nodes)[b])
    ensures a in Scores(Pool(nodes), w) && b in Scores(Pool(nodes), w)
    ensures Scores(Pool(nodes), w)[a] <= Scores(Pool(nodes), w)[b]
  {
    DominanceInRaw(Latest(nodes)[a], Latest(nodes)[b]);
    PoolOrder(Raw(Latest(nodes)), a, b);
    WeightedSumMonotone(Pool(nodes)[a], Pool(nodes)[b], w);
    Round6Monotone(WeightedSum(Pool(nodes)[a], w), WeightedSum(Pool(nodes)[b], w));
  }
}
