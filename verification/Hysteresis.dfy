/** Anti-flapping over whole runs (decision_engine/engine.py): when feeding the chosen node back as incumbent
    settles, and why the margin is exactly what it takes. */
module Hysteresis {
  import opened Contracts
  import opened Filter
  import opened Scoring
  import opened TwoNodes
  import opened Ranking
  import opened Engine

  type Cycle = map<string, real>

  /** What cycle `k` chooses when the choice before it is its incumbent. */
  ghost predicate Picks(cycle: Cycle, incumbent: Option<string>, margin: real, id: string)
  {
    cycle != map[] && Choice(cycle, incumbent, margin).id == id
  }

  ghost predicate PicksAt(cycles: seq<Cycle>, start: Option<string>, margin: real, chosen: seq<string>, k: nat)
    requires k < |chosen| && k < |cycles|
  {
    Picks(cycles[k], if k == 0 then start else Some(chosen[k - 1]), margin, chosen[k])
  }

  /** `chosen` are the nodes chosen in the cycles of a run, each fed back as incumbent of the next cycle. */
  ghost predicate Follows(cycles: seq<Cycle>, start: Option<string>, margin: real, chosen: seq<string>)
  {
    |chosen| == |cycles| && forall k :: 0 <= k < |cycles| ==> PicksAt(cycles, start, margin, chosen, k)
  }

  /** Scores of a fixed set of nodes, each between its own `low` and `high`. */
  ghost predicate InRange(cycle: Cycle, low: Cycle, high: Cycle)
  {
    && cycle.Keys == low.Keys == high.Keys && "" !in low
    && forall id :: id in low ==> 0.0 <= low[id] <= cycle[id] <= high[id]
  }

  /** No node's score varies by as much as the margin, unless it is always zero. */
  ghost predicate Steady(low: Cycle, high: Cycle, margin: real)
  {
    && 0.0 < margin < 1.0
    && forall id :: id in low && id in high ==> high[id] * (1.0 - margin) < low[id] || high[id] == 0.0
  }

  /** The potential: lowest score first, then node id. */
  predicate Lower(low: Cycle, a: string, b: string)
  {
    a in low && b in low && Before(Ranked(a, low[a]), Ranked(b, low[b]))
  }

  ghost predicate Beats(cycle: Cycle, to: string, from: string, margin: real)
  {
    && to in cycle && from in cycle && cycle[to] <= cycle[from] * (1.0 - margin)
    && Before(Ranked(to, cycle[to]), Ranked(from, cycle[from]))
  }

  /** Who replaces an incumbent is the best node and beats it by the margin. */
  lemma ReplacementIsBest(cycle: Cycle, from: string, margin: real, to: string)
    requires Picks(cycle, Some(from), margin, to) && from in cycle && from != "" && to != from
    ensures Beats(cycle, to, from, margin)
  {
    BestIsLeast(cycle, from);
    var r := RankingOf(cycle);
    var i :| 0 <= i < |r| && r[i].id == from;
    assert Before(r[0], r[i]);
  }

  lemma PickedIsNode(cycle: Cycle, incumbent: Option<string>, margin: real, to: string)
    requires Picks(cycle, incumbent, margin, to)
    ensures to in cycle
  {
    var id :| id in cycle;
    BestIsLeast(cycle, id);
  }

  lemma ProductBelow(s: real, high: real, factor: real, low: real)
    requires 0.0 <= factor && s <= high && high * factor < low
    ensures s * factor < low
  {
    WeighMonotone(factor, s, high);
  }

  lemma Descent(low: Cycle, from: string, to: string, before: real, after: real, high: real, margin: real)
    requires 0.0 < margin < 1.0 && from in low && to in low
    requires 0.0 <= low[from] <= before <= high && 0.0 <= low[to] <= after <= before * (1.0 - margin)
    requires Before(Ranked(to, after), Ranked(from, before))
    requires high * (1.0 - margin) < low[from] || high == 0.0
    ensures Lower(low, to, from)
  {
    if high * (1.0 - margin) < low[from] {
      ProductBelow(before, high, 1.0 - margin, low[from]);
    } else {
      assert before == 0.0 && low[from] == 0.0;
      assert before * (1.0 - margin) == 0.0;
    }
  }

  /** A switch goes down in the potential. */
  lemma SwitchDescends(cycle: Cycle, low: Cycle, high: Cycle, margin: real, from: string, to: string)
    requires InRange(cycle, low, high) && Steady(low, high, margin) && Beats(cycle, to, from, margin)
    ensures Lower(low, to, from)
  {
    Descent(low, from, to, cycle[from], cycle[to], high[from], margin);
  }

  /** What the potential argument needs to know about a run. */
  ghost predicate Descends(chosen: seq<string>, low: Cycle)
  {
    && (forall k :: 0 <= k < |chosen| ==> chosen[k] in low)
    && (forall k :: 0 < k < |chosen| ==> chosen[k] == chosen[k - 1] || Lower(low, chosen[k], chosen[k - 1]))
  }

  lemma {:induction false} RunDescends(cycles: seq<Cycle>, start: Option<string>, margin: real, chosen: seq<string>,
    low: Cycle, high: Cycle)
    requires Follows(cycles, start, margin, chosen) && Steady(low, high, margin)
    requires forall k :: 0 <= k < |cycles| ==> InRange(cycles[k], low, high)
    ensures Descends(chosen, low)
  {
    forall k | 0 <= k < |chosen| ensures chosen[k] in low {
      assert PicksAt(cycles, start, margin, chosen, k);
      PickedIsNode(cycles[k], if k == 0 then start else Some(chosen[k - 1]), margin, chosen[k]);
      assert InRange(cycles[k], low, high);
    }
    forall k | 0 < k < |chosen| ensures chosen[k] == chosen[k - 1] || Lower(low, chosen[k], chosen[k - 1]) {
      assert InRange(cycles[k], low, high) && PicksAt(cycles, start, margin, chosen, k);
      if chosen[k] != chosen[k - 1] {
        ReplacementIsBest(cycles[k], chosen[k - 1], margin, chosen[k]);
        SwitchDescends(cycles[k], low, high, margin, chosen[k - 1], chosen[k]);
      }
    }
  }

  lemma LowerTransitive(low: Cycle, a: string, b: string, c: string)
    requires Lower(low, a, b) && Lower(low, b, c)
    ensures Lower(low, a, c) && a != c
  {
    BeforeTransitive(Ranked(a, low[a]), Ranked(b, low[b]), Ranked(c, low[c]));
    BeforeTotal(Ranked(a, low[a]), Ranked(c, low[c]));
  }

  lemma {:induction false} LaterIsLower(chosen: seq<string>, low: Cycle, i: nat, j: nat)
    requires Descends(chosen, low) && i <= j < |chosen|
    ensures chosen[j] == chosen[i] || Lower(low, chosen[j], chosen[i])
  {
    if i < j {
      LaterIsLower(chosen, low, i, j - 1);
      if chosen[j] != chosen[j - 1] && chosen[j - 1] != chosen[i] {
        LowerTransitive(low, chosen[j], chosen[j - 1], chosen[i]);
      }
    }
  }

  /** A node that was left is never chosen again. */
  lemma NeverReturns(cycles: seq<Cycle>, start: Option<string>, margin: real, chosen: seq<string>, low: Cycle,
    high: Cycle, i: nat, j: nat, k: nat)
    requires Follows(cycles, start, margin, chosen) && Steady(low, high, margin)
    requires forall k :: 0 <= k < |cycles| ==> InRange(cycles[k], low, high)
    requires i < j < k < |chosen| && chosen[j] != chosen[i]
    ensures chosen[k] != chosen[i]
  {
    RunDescends(cycles, start, margin, chosen, low, high);
    LaterIsLower(chosen, low, i, j);
    LaterIsLower(chosen, low, j, k);
    if chosen[k] != chosen[j] {
      LowerTransitive(low, chosen[k], chosen[j], chosen[i]);
    }
  }

  function Switches(chosen: seq<string>): nat
  {
    if |chosen| < 2 then 0
    else
      Switches(chosen[..|chosen| - 1]) + if chosen[|chosen| - 1] != chosen[|chosen| - 2] then 1 else 0
  }

  function LowerNodes(low: Cycle, a: string): set<string>
  {
    set b | b in low && Lower(low, b, a)
  }

  lemma SubsetSize(x: set<string>, y: set<string>)
    requires x < y
    ensures |x| < |y|
  {
    var rest := y - x;
    assert y == x + rest && rest != {};
  }

  lemma LowerNodesShrink(low: Cycle, a: string, b: string)
    requires Lower(low, b, a)
    ensures |LowerNodes(low, b)| < |LowerNodes(low, a)|
  {
    forall c | c in LowerNodes(low, b) ensures c in LowerNodes(low, a) {
      LowerTransitive(low, c, b, a);
    }
    BeforeTotal(Ranked(b, low[b]), Ranked(b, low[b]));
    assert b in LowerNodes(low, a) && b !in LowerNodes(low, b);
    SubsetSize(LowerNodes(low, b), LowerNodes(low, a));
  }

  lemma {:induction false} SwitchesUseUpPotential(chosen: seq<string>, low: Cycle)
    requires Descends(chosen, low) && chosen != []
    ensures Switches(chosen) + |LowerNodes(low, chosen[|chosen| - 1])| <= |LowerNodes(low, chosen[0])|
  {
    if |chosen| > 1 {
      var before := chosen[..|chosen| - 1];
      SwitchesUseUpPotential(before, low);
      var (a, b) := (chosen[|chosen| - 2], chosen[|chosen| - 1]);
      if a != b {
        LowerNodesShrink(low, a, b);
      }
    }
  }

  /** However long the run, the placement switches at most once less than there are nodes. */
  lemma SwitchesAreBounded(cycles: seq<Cycle>, start: Option<string>, margin: real, chosen: seq<string>,
    low: Cycle, high: Cycle)
    requires Follows(cycles, start, margin, chosen) && Steady(low, high, margin) && chosen != []
    requires forall k :: 0 <= k < |cycles| ==> InRange(cycles[k], low, high)
    ensures Switches(chosen) <= |low| - 1
  {
    RunDescends(cycles, start, margin, chosen, low, high);
    SwitchesUseUpPotential(chosen, low);
    var first := chosen[0];
    BeforeTotal(Ranked(first, low[first]), Ranked(first, low[first]));
    assert first in low.Keys && first !in LowerNodes(low, first);
    SubsetSize(LowerNodes(low, first), low.Keys);
  }

  // ---- Runs of the engine

  /** The engine, under these limits, places the task on `id`. */
  ghost predicate PlacesFor(l: Limits, d: Demand, w: Weights, margin: real, candidates: seq<Snapshot>,
    incumbent: Option<string>, id: string)
  {
    var survivors := Survivors(l, d, candidates);
    survivors != [] && Scored(survivors, w, incumbent, margin, Rejections(l, d, candidates)).chosenNode == id
  }

  /** What the scorer sees of the candidates. */
  ghost function CycleOf(l: Limits, d: Demand, w: Weights, candidates: seq<Snapshot>): Cycle
  {
    ScoresOf(Survivors(l, d, candidates), w)
  }

  lemma PlacedIsPicked(l: Limits, d: Demand, w: Weights, margin: real, candidates: seq<Snapshot>,
    incumbent: Option<string>, id: string)
    requires PlacesFor(l, d, w, margin, candidates, incumbent, id)
    ensures Picks(CycleOf(l, d, w, candidates), incumbent, margin, id)
  {
    SomeScores(Survivors(l, d, candidates), w);
  }

  ghost predicate PlacesAt(l: Limits, d: Demand, w: Weights, margin: real, pools: seq<seq<Snapshot>>,
    start: Option<string>, chosen: seq<string>, k: nat)
    requires k < |pools| && k < |chosen|
  {
    PlacesFor(l, d, w, margin, pools[k], if k == 0 then start else Some(chosen[k - 1]), chosen[k])
  }

  /** A run of decisions for one task class, each placement being the incumbent of the next. */
  ghost predicate PlacesAll(l: Limits, d: Demand, w: Weights, margin: real, pools: seq<seq<Snapshot>>,
    start: Option<string>, chosen: seq<string>)
  {
    |chosen| == |pools| && forall k :: 0 <= k < |pools| ==> PlacesAt(l, d, w, margin, pools, start, chosen, k)
  }

  ghost function CyclesOf(l: Limits, d: Demand, w: Weights, pools: seq<seq<Snapshot>>): seq<Cycle>
  {
    seq(|pools|, k requires 0 <= k < |pools| => CycleOf(l, d, w, pools[k]))
  }

  lemma PlacementsFollow(l: Limits, d: Demand, w: Weights, margin: real, pools: seq<seq<Snapshot>>,
    start: Option<string>, chosen: seq<string>)
    requires PlacesAll(l, d, w, margin, pools, start, chosen)
    ensures Follows(CyclesOf(l, d, w, pools), start, margin, chosen)
  {
    var cycles := CyclesOf(l, d, w, pools);
    forall k | 0 <= k < |pools| ensures PicksAt(cycles, start, margin, chosen, k) {
      assert PlacesAt(l, d, w, margin, pools, start, chosen, k);
      PlacedIsPicked(l, d, w, margin, pools[k], if k == 0 then start else Some(chosen[k - 1]), chosen[k]);
    }
  }

  /** All decisions see the same nodes pass, with scores in range. */
  ghost predicate AllInRange(cycles: seq<Cycle>, low: Cycle, high: Cycle)
  {
    forall k :: 0 <= k < |cycles| ==> InRange(cycles[k], low, high)
  }

  /** The engine itself, over snapshots: no return to a node that was left, and at most one switch less than there are
      nodes, in runs of any length. */
  lemma EngineSettles(l: Limits, d: Demand, w: Weights, margin: real, pools: seq<seq<Snapshot>>,
    start: Option<string>, chosen: seq<string>, low: Cycle, high: Cycle)
    requires PlacesAll(l, d, w, margin, pools, start, chosen) && chosen != []
    requires Steady(low, high, margin) && AllInRange(CyclesOf(l, d, w, pools), low, high)
    ensures Switches(chosen) <= |low| - 1
    ensures forall i, j, k :: 0 <= i < j < k < |chosen| && chosen[j] != chosen[i] ==> chosen[k] != chosen[i]
  {
    var cycles := CyclesOf(l, d, w, pools);
    PlacementsFollow(l, d, w, margin, pools, start, chosen);
    SwitchesAreBounded(cycles, start, margin, chosen, low, high);
    forall i, j, k | 0 <= i < j < k < |chosen| && chosen[j] != chosen[i] ensures chosen[k] != chosen[i] {
      NeverReturns(cycles, start, margin, chosen, low, high, i, j, k);
    }
  }

  // ---- The bound is sharp

  const A := "a"
  const B := "b"

  /** Slow, but idle and well connected. */
  function Slow(id: string): Snapshot { NodeWith(id, 2.0, 2.0, 1.0, 1, 0.1) }

  /** Near, but busy and badly connected. */
  function Busy(id: string): Snapshot { NodeWith(id, 1.0, 1.0, 2.0, 2, 0.1) }

  /** Two nodes that exchange their loads in every cycle. */
  function Swing(k: nat): seq<Snapshot>
  {
    if k % 2 == 0 then [Slow(A), Busy(B)] else [Busy(A), Slow(B)]
  }

  /** The busy one. */
  function Swinger(k: nat): string { if k % 2 == 0 then B else A }

  const UNDEMANDING := Demand(RealTime, None, Standard)

  lemma PairPasses(m: Snapshot, n: Snapshot)
    requires Passes(DEFAULT_LIMITS, UNDEMANDING, m) && Passes(DEFAULT_LIMITS, UNDEMANDING, n)
    ensures Survivors(DEFAULT_LIMITS, UNDEMANDING, [m, n]) == [m, n]
  {
    assert [m, n][..1] == [m] && [m][..0] == [];
    assert Survivors(DEFAULT_LIMITS, UNDEMANDING, [m]) == [m];
  }

  lemma LoadsPass(id: string)
    ensures Passes(DEFAULT_LIMITS, UNDEMANDING, Slow(id)) && Passes(DEFAULT_LIMITS, UNDEMANDING, Busy(id))
  {
  }

  lemma SwingPasses(k: nat)
    ensures Survivors(DEFAULT_LIMITS, UNDEMANDING, Swing(k)) == Swing(k)
  {
    LoadsPass(A);
    LoadsPass(B);
    PairPasses(Swing(k)[0], Swing(k)[1]);
  }

  /** What the slow node and the busy node score together. */
  function SlowScore(w: Weights): real { Round6(w.lat) }

  function BusyScore(w: Weights): real { Round6(w.bw + w.cmp + w.queue) }

  lemma LoadScores(x: string, y: string, w: Weights)
    ensures Score(ContrastOf(RawMetrics(Slow(x)), RawMetrics(Busy(y))), w) == SlowScore(w)
    ensures Score(ContrastOf(RawMetrics(Busy(y)), RawMetrics(Slow(x))), w) == BusyScore(w)
  {
    assert RawMetrics(Slow(x)) == Metrics(2.0, 0.5, 1.0, 1.0, 0.1);
    assert RawMetrics(Busy(y)) == Metrics(1.0, 1.0, 2.0, 2.0, 0.1);
    assert WeightedSum(Metrics(1.0, 0.0, 0.0, 0.0, 0.0), w) == w.lat;
    assert WeightedSum(Metrics(0.0, 1.0, 1.0, 1.0, 0.0), w) == w.bw + w.cmp + w.queue;
  }

  function SwingCycle(w: Weights, k: nat): Cycle
  {
    if k % 2 == 0 then map[A := SlowScore(w), B := BusyScore(w)] else map[A := BusyScore(w), B := SlowScore(w)]
  }

  lemma SwingScores(w: Weights, k: nat)
    ensures ScoresOf(Swing(k), w) == SwingCycle(w, k)
  {
    assert A[0] != B[0];
    if k % 2 == 0 {
      PairScores(Slow(A), Busy(B), w);
      LoadScores(A, B, w);
    } else {
      PairScores(Busy(A), Slow(B), w);
      LoadScores(B, A, w);
    }
  }

  lemma BetterOfTwo(cycle: Cycle, better: string, worse: string, margin: real)
    requires 0.0 < margin < 1.0 && better != worse && worse != ""
    requires cycle.Keys == {better, worse} && cycle[better] < cycle[worse]
    requires cycle[better] <= cycle[worse] * (1.0 - margin)
    ensures Picks(cycle, None, margin, better) && Picks(cycle, Some(worse), margin, better)
  {
    BestIsLeast(cycle, better);
  }

  /** These weights let the two scores differ by exactly the margin. */
  ghost predicate Admits(w: Weights, margin: real)
  {
    0.0 < margin < 1.0 && SlowScore(w) > 0.0 && SlowScore(w) * (1.0 - margin) == BusyScore(w)
  }

  lemma BelowTheWhole(x: real, margin: real)
    requires x > 0.0 && 0.0 < margin
    ensures x * (1.0 - margin) < x
  {
    assert x * margin > 0.0;
  }

  lemma SwingPicks(w: Weights, margin: real, k: nat)
    requires Admits(w, margin)
    ensures Picks(SwingCycle(w, k), if k == 0 then None else Some(Swinger(k - 1)), margin, Swinger(k))
  {
    assert A[0] != B[0];
    BelowTheWhole(SlowScore(w), margin);
    if k % 2 == 0 {
      BetterOfTwo(SwingCycle(w, k), B, A, margin);
    } else {
      BetterOfTwo(SwingCycle(w, k), A, B, margin);
    }
  }

  lemma {:induction false} AlwaysSwitches(chosen: seq<string>)
    requires forall k :: 0 <= k < |chosen| ==> chosen[k] == Swinger(k)
    ensures chosen != [] ==> Switches(chosen) == |chosen| - 1
  {
    assert A[0] != B[0];
    if |chosen| > 1 {
      AlwaysSwitches(chosen[..|chosen| - 1]);
    }
  }

  /** The engine, under its default limits, places an undemanding task on `id`. */
  ghost predicate Places(w: Weights, margin: real, candidates: seq<Snapshot>, incumbent: Option<string>, id: string)
  {
    PlacesFor(DEFAULT_LIMITS, UNDEMANDING, w, margin, candidates, incumbent, id)
  }

  lemma PickedIsPlaced(w: Weights, margin: real, candidates: seq<Snapshot>, incumbent: Option<string>, id: string)
    requires candidates != [] && Survivors(DEFAULT_LIMITS, UNDEMANDING, candidates) == candidates
    requires Picks(ScoresOf(candidates, w), incumbent, margin, id)
    ensures Places(w, margin, candidates, incumbent, id)
  {
  }

  lemma SwingPlaces(w: Weights, margin: real, k: nat)
    requires Admits(w, margin)
    ensures Places(w, margin, Swing(k), if k == 0 then None else Some(Swinger(k - 1)), Swinger(k))
  {
    SwingPasses(k);
    SwingScores(w, k);
    SwingPicks(w, margin, k);
    PickedIsPlaced(w, margin, Swing(k), if k == 0 then None else Some(Swinger(k - 1)), Swinger(k));
  }

  function Extreme(score: real): Cycle { map[A := score, B := score] }

  lemma ExtremesEnclose(cycle: Cycle, low: real, high: real)
    requires cycle.Keys == {A, B} && 0.0 <= low && low <= cycle[A] <= high && low <= cycle[B] <= high
    ensures InRange(cycle, Extreme(low), Extreme(high))
  {
    assert A[0] != B[0];
  }

  lemma BusyIsNotNegative(w: Weights)
    requires w.Valid()
    ensures 0.0 <= BusyScore(w)
  {
    Round6Monotone(0.0, w.bw + w.cmp + w.queue);
    assert Nearest(0.0 * MICRO) == 0;
  }

  lemma BusyIsBetter(w: Weights, margin: real)
    requires Admits(w, margin)
    ensures BusyScore(w) < SlowScore(w)
  {
    BelowTheWhole(SlowScore(w), margin);
  }

  lemma SwingCycleStaysInRange(w: Weights, margin: real, k: nat)
    requires w.Valid() && Admits(w, margin)
    ensures InRange(SwingCycle(w, k), Extreme(BusyScore(w)), Extreme(SlowScore(w)))
  {
    BusyIsNotNegative(w);
    BusyIsBetter(w, margin);
    assert A[0] != B[0];
    ExtremesEnclose(SwingCycle(w, k), BusyScore(w), SlowScore(w));
  }

  lemma SwingStaysInRange(w: Weights, margin: real, k: nat)
    requires w.Valid() && Admits(w, margin)
    ensures InRange(ScoresOf(Swing(k), w), Extreme(BusyScore(w)), Extreme(SlowScore(w)))
  {
    SwingScores(w, k);
    SwingCycleStaysInRange(w, margin, k);
  }

  /** The nodes chosen in `n` cycles. */
  function Swingers(n: nat): seq<string> { seq(n, (k: nat) => Swinger(k)) }

  /** With a variation equal to the margin, instead of below it, the engine may switch in every cycle of a run of any
      length `n`: under all weights that let two nodes' scores differ by just the margin (`Admits`), two nodes that
      keep passing every constraint make it do so by exchanging their loads. `k` is any cycle of the run. */
  lemma FlapsAtTheMargin(w: Weights, margin: real, n: nat, k: nat)
    requires w.Valid() && Admits(w, margin) && k < n
    ensures Switches(Swingers(n)) == n - 1
    ensures Places(w, margin, Swing(k), if k == 0 then None else Some(Swingers(n)[k - 1]), Swingers(n)[k])
    ensures InRange(ScoresOf(Swing(k), w), Extreme(BusyScore(w)), Extreme(SlowScore(w)))
  {
    AlwaysSwitches(Swingers(n));
    SwingPlaces(w, margin, k);
    SwingStaysInRange(w, margin, k);
  }

  /** The default weights for real-time tasks and the default margin of a tenth are such a case: 0.45 against 0.5. */
  lemma DefaultsFlap()
    ensures DefaultWeights(RealTime).Valid() && Admits(DefaultWeights(RealTime), 0.1)
    ensures SlowScore(DefaultWeights(RealTime)) == 0.5 && BusyScore(DefaultWeights(RealTime)) == 0.45
  {
    assert Nearest(0.5 * MICRO) == 500000 && Nearest(0.45 * MICRO) == 450000;
  }
}
