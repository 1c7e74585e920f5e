/** Pools of two nodes: what they score, and how far scores can go. */
module TwoNodes {
  import opened Contracts
  import opened Filter
  import opened Scoring

  /** The normalised value of `mine` in a pool of two. */
  function Contrast(mine: real, other: real): real
  {
    if mine - other > SPREAD_CUTOFF then 1.0 else 0.0
  }

  lemma PairNormalized(raw: map<string, real>, a: string, b: string)
    requires raw.Keys == {a, b}
    ensures Normalized(raw).Keys == {a, b} && Normalized(raw)[a] == Contrast(raw[a], raw[b])
  {
    var (low, high) := (Least(raw), Greatest(raw));
    assert a in raw && b in raw;
    var d := high - low;
    if d > SPREAD_CUTOFF {
      DivideSelf(d);
    }
  }

  function ContrastOf(mine: Metrics, other: Metrics): Metrics
  {
    Metrics(Contrast(mine.latency, other.latency), Contrast(mine.bandwidth, other.bandwidth),
      Contrast(mine.compute, other.compute), Contrast(mine.queue, other.queue), Contrast(mine.cost, other.cost))
  }

  lemma PairMetrics(raw: map<string, Metrics>, a: string, b: string)
    requires raw.Keys == {a, b}
    ensures NormalizedMetrics(raw).Keys == {a, b} && NormalizedMetrics(raw)[a] == ContrastOf(raw[a], raw[b])
  {
    PairNormalized(Column(raw, Latency), a, b);
    PairNormalized(Column(raw, Bandwidth), a, b);
    PairNormalized(Column(raw, Utilisation), a, b);
    PairNormalized(Column(raw, Queue), a, b);
    PairNormalized(Column(raw, Cost), a, b);
  }

  lemma PairLatest(m: Snapshot, n: Snapshot)
    requires m.nodeId != n.nodeId
    ensures Latest([m, n]) == map[m.nodeId := m, n.nodeId := n]
  {
    assert [m, n][..1] == [m];
    assert [m][..0] == [];
    assert Latest([m]) == map[m.nodeId := m];
  }

  /** In a pool of two, each node's metrics are its contrasts with the other. */
  lemma PairPool(m: Snapshot, n: Snapshot)
    requires m.nodeId != n.nodeId
    ensures Pool([m, n]).Keys == {m.nodeId, n.nodeId}
    ensures Pool([m, n])[m.nodeId] == ContrastOf(RawMetrics(m), RawMetrics(n))
    ensures Pool([m, n])[n.nodeId] == ContrastOf(RawMetrics(n), RawMetrics(m))
  {
    PairLatest(m, n);
    var raw := Raw(Latest([m, n]));
    assert raw.Keys == {m.nodeId, n.nodeId} == {n.nodeId, m.nodeId};
    PairMetrics(raw, m.nodeId, n.nodeId);
    PairMetrics(raw, n.nodeId, m.nodeId);
  }

  lemma ScoresOfPair(pool: map<string, Metrics>, w: Weights, a: string, b: string)
    requires pool.Keys == {a, b}
    ensures Scores(pool, w) == map[a := Score(pool[a], w), b := Score(pool[b], w)]
  {
    assert a in pool && b in pool;
  }

  lemma PairScores(m: Snapshot, n: Snapshot, w: Weights)
    requires m.nodeId != n.nodeId
    ensures Scores(Pool([m, n]), w)
      == map[m.nodeId := Score(ContrastOf(RawMetrics(m), RawMetrics(n)), w),
        n.nodeId := Score(ContrastOf(RawMetrics(n), RawMetrics(m)), w)]
  {
    PairPool(m, n);
    ScoresOfPair(Pool([m, n]), w, m.nodeId, n.nodeId);
  }

  /** Worse by more than the cutoff. */
  predicate Worse(mine: real, other: real) { mine - other > 0.000000001 }

  function AtLeast(least: real, x: real): real { if x < least then least else x }

  function CountIf(worse: bool, weight: real): real { if worse then weight else 0.0 }

  function Flag(worse: bool): real { if worse then 1.0 else 0.0 }

  lemma WeighFlag(worse: bool, weight: real)
    ensures Weigh(weight, Flag(worse)) == CountIf(worse, weight)
  {
  }

  lemma FlagSum(lat: bool, bw: bool, cmp: bool, queue: bool, cost: bool, w: Weights)
    ensures WeightedSum(Metrics(Flag(lat), Flag(bw), Flag(cmp), Flag(queue), Flag(cost)), w)
      == CountIf(lat, w.lat) + CountIf(bw, w.bw) + CountIf(cmp, w.cmp) + CountIf(queue, w.queue) + CountIf(cost, w.cost)
  {
    WeighFlag(lat, w.lat);
    WeighFlag(bw, w.bw);
    WeighFlag(cmp, w.cmp);
    WeighFlag(queue, w.queue);
    WeighFlag(cost, w.cost);
  }

  lemma ContrastFlags(m: Snapshot, n: Snapshot)
    ensures ContrastOf(RawMetrics(m), RawMetrics(n)) == Metrics(
      Flag(Worse(m.rttMs, n.rttMs)),
      Flag(Worse(1.0 / AtLeast(0.001, m.bandwidthMbps), 1.0 / AtLeast(0.001, n.bandwidthMbps))),
      Flag(Worse(AtLeast(m.cpuPct, m.gpuPct), AtLeast(n.cpuPct, n.gpuPct))),
      Flag(m.queueDepth > n.queueDepth),
      Flag(Worse(m.cost, n.cost)))
  {
    assert Worse(m.queueDepth as real, n.queueDepth as real) <==> m.queueDepth > n.queueDepth;
  }

  /** The weights of just those dimensions in which `m` is worse than `n`. */
  function WeightOfWorse(m: Snapshot, n: Snapshot, w: Weights): real
  {
    CountIf(Worse(m.rttMs, n.rttMs), w.lat)
    + CountIf(Worse(1.0 / AtLeast(0.001, m.bandwidthMbps), 1.0 / AtLeast(0.001, n.bandwidthMbps)), w.bw)
    + CountIf(Worse(AtLeast(m.cpuPct, m.gpuPct), AtLeast(n.cpuPct, n.gpuPct)), w.cmp)
    + CountIf(m.queueDepth > n.queueDepth, w.queue)
    + CountIf(Worse(m.cost, n.cost), w.cost)
  }

  lemma ContrastWeighs(m: Snapshot, n: Snapshot, w: Weights)
    ensures WeightedSum(ContrastOf(RawMetrics(m), RawMetrics(n)), w) == WeightOfWorse(m, n, w)
  {
    ContrastFlags(m, n);
    FlagSum(Worse(m.rttMs, n.rttMs),
      Worse(1.0 / AtLeast(0.001, m.bandwidthMbps), 1.0 / AtLeast(0.001, n.bandwidthMbps)),
      Worse(AtLeast(m.cpuPct, m.gpuPct), AtLeast(n.cpuPct, n.gpuPct)), m.queueDepth > n.queueDepth,
      Worse(m.cost, n.cost), w);
  }

  /** What nodes score in a pool of two: the rounded sum of the weights of just those dimensions in which the node is
      the worse one. So a node that is worse in one dimension only scores the rounded weight of this dimension. */
  lemma PairScoresExactly(m: Snapshot, n: Snapshot, w: Weights)
    requires m.nodeId != n.nodeId
    ensures Scores(Pool([m, n]), w)
      == map[m.nodeId := Round6(WeightOfWorse(m, n, w)), n.nodeId := Round6(WeightOfWorse(n, m, w))]
  {
    PairScores(m, n, w);
    ContrastWeighs(m, n, w);
    ContrastWeighs(n, m, w);
  }

  /** A healthy node that passes every constraint of an undemanding task. */
  function NodeWith(id: string, rttMs: real, bandwidthMbps: real, utilisationPct: real, queueDepth: int,
    cost: real): Snapshot
  {
    Snapshot(id, rttMs, bandwidthMbps,
      utilisationPct, utilisationPct, queueDepth, cost, Healthy, 0.0, [], None, Standard)
  }

  // ---- How high scores can get

  function Total(w: Weights): real { w.lat + w.bw + w.cmp + w.queue + w.cost }

  const ALL_WORST: Metrics := Metrics(1.0, 1.0, 1.0, 1.0, 1.0)

  const GOOD: Snapshot := NodeWith("good", 1.0, 2.0, 1.0, 1, 0.1)
  const BAD: Snapshot := NodeWith("bad", 2.0, 1.0, 2.0, 2, 0.2)

  lemma BadIsWorst()
    ensures Pool([GOOD, BAD]).Keys == {"good", "bad"} && Pool([GOOD, BAD])["bad"] == ALL_WORST
  {
    assert GOOD.nodeId[0] != BAD.nodeId[0];
    PairPool(GOOD, BAD);
    assert RawMetrics(BAD).bandwidth == 1.0 && RawMetrics(GOOD).bandwidth == 0.5;
  }

  lemma WorstIsTotal(w: Weights)
    ensures Score(ALL_WORST, w) == Round6(Total(w))
  {
    assert WeightedSum(ALL_WORST, w) == Total(w);
  }

  ghost predicate Reaches(nodes: seq<Snapshot>, w: Weights, id: string, score: real)
  {
    id in Scores(Pool(nodes), w) && Scores(Pool(nodes), w)[id] == score
  }

  lemma NoScoreAboveTotal(nodes: seq<Snapshot>, w: Weights, id: string)
    requires w.Valid() && id in Pool(nodes)
    ensures Scores(Pool(nodes), w)[id] <= Round6(Total(w))
  {
    PoolOrder(Raw(Latest(nodes)), id, id);
    WeightedSumMonotone(Pool(nodes)[id], ALL_WORST, w);
    Round6Monotone(WeightedSum(Pool(nodes)[id], w), WeightedSum(ALL_WORST, w));
    WorstIsTotal(w);
  }

  /** The greatest score that any pool can give is the rounded sum of the weights, and it is reached. */
  lemma GreatestScore(w: Weights)
    requires w.Valid()
    ensures exists nodes, id :: Reaches(nodes, w, id, Round6(Total(w)))
    ensures forall nodes, id, score :: Reaches(nodes, w, id, score) ==> score <= Round6(Total(w))
  {
    BadIsWorst();
    WorstIsTotal(w);
    assert Reaches([GOOD, BAD], w, "bad", Round6(Total(w)));
    forall nodes, id, score | Reaches(nodes, w, id, score) ensures score <= Round6(Total(w)) {
      NoScoreAboveTotal(nodes, w, id);
    }
  }

  /** Some pool scores above one if and only if the sum of the weights, rounded, exceeds one. */
  lemma AboveOneExactly(w: Weights)
    requires w.Valid()
    ensures (exists nodes, id, score :: Reaches(nodes, w, id, score) && score > 1.0) <==> Round6(Total(w)) > 1.0
  {
    GreatestScore(w);
    var nodes, id :| Reaches(nodes, w, id, Round6(Total(w)));
  }

  /** The bound 1.001 on all scores is reached. */
  lemma BoundIsReached()
    ensures Weights(0.2, 0.2, 0.2, 0.2, 0.201).Valid()
    ensures Reaches([GOOD, BAD], Weights(0.2, 0.2, 0.2, 0.2, 0.201), "bad", 1.001)
  {
    var w := Weights(0.2, 0.2, 0.2, 0.2, 0.201);
    BadIsWorst();
    WorstIsTotal(w);
    assert Total(w) == 1.001;
    assert Nearest(1.001 * MICRO) == 1001000;
  }
}
