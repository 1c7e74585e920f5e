/** The placement decision (decision_engine/engine.py). */
module Engine {
  import opened Contracts
  import opened Filter
  import opened Scoring
  import opened Ranking
  import Dispatch
  import Text

  datatype Placement = Placement(
    chosenNode: string,
    chosenScore: real,
    runnerUp: Option<Ranked>,
    fallbackChain: seq<string>,
    filteredOut: map<string, Reason>,
    weights: Weights,
    usedFallbackPolicy: bool)

  /** The static policy loaded at start-up. */
  datatype StaticPolicy = StaticPolicy(defaultChain: seq<string>, overrides: map<string, seq<string>>)

  function DefaultWeights(c: SlaClass): Weights
  {
    match c
    case RealTime => Weights(0.50, 0.15, 0.15, 0.15, 0.05)
    case Interactive => Weights(0.35, 0.15, 0.20, 0.15, 0.15)
    case Batch => Weights(0.10, 0.10, 0.20, 0.20, 0.40)
  }

  function WeightsFor(custom: map<SlaClass, Weights>, c: SlaClass): Weights
  {
    if c in custom then custom[c] else DefaultWeights(c)
  }

  function StaticChain(p: StaticPolicy, d: Demand): seq<string>
  {
    if d.dataResidency.Some? && d.dataResidency.value != "" && Text.Lower(d.dataResidency.value) in p.overrides
    then p.overrides[Text.Lower(d.dataResidency.value)] else p.defaultChain
  }

  function StaticDecision(p: StaticPolicy, d: Demand, w: Weights): Placement
  {
    var chain := StaticChain(p, d);
    Placement(
      if chain != [] then chain[0] else "cloud-default-fallback", 1.0,
      if |chain| > 1 then Some(Ranked(chain[1], 1.0)) else None,
      chain, map["system" := AllCandidatesFailed], w, true)
  }

  /** The best node, unless an incumbent is in the race and is not beaten by the margin. */
  ghost function Choice(scores: map<string, real>, incumbent: Option<string>, margin: real): Ranked
    requires scores != map[]
  {
    EmptyRanking(RankingOf(scores), scores);
    var best := RankingOf(scores)[0];
    if incumbent.Some? && incumbent.value != "" && incumbent.value != best.id && incumbent.value in scores
      && best.score > scores[incumbent.value] * (1.0 - margin)
    then Ranked(incumbent.value, scores[incumbent.value])
    else best
  }

  function Top3(ranked: seq<Ranked>): seq<string>
  {
    seq(if |ranked| < 3 then |ranked| else 3, i requires 0 <= i < |ranked| => ranked[i].id)
  }

  ghost function ScoresOf(survivors: seq<Snapshot>, w: Weights): map<string, real>
  {
    Scores(Pool(survivors), w)
  }

  lemma {:induction false} LatestKeys(nodes: seq<Snapshot>)
    ensures forall id :: id in Latest(nodes) <==> exists n :: n in nodes && n.nodeId == id
    ensures forall id :: id in Latest(nodes) ==> Latest(nodes)[id] in nodes && Latest(nodes)[id].nodeId == id
  {
    if nodes != [] {
      var (before, last) := (nodes[..|nodes| - 1], nodes[|nodes| - 1]);
      LatestKeys(before);
      assert nodes == before + [last];
    }
  }

  lemma SomeScores(survivors: seq<Snapshot>, w: Weights)
    requires survivors != []
    ensures ScoresOf(survivors, w) != map[]
  {
    LatestHas(survivors, 0);
    assert survivors[0].nodeId in ScoresOf(survivors, w);
  }

  ghost function Scored(survivors: seq<Snapshot>, w: Weights, incumbent: Option<string>, margin: real,
    rejected: map<string, Reason>): Placement
    requires survivors != []
  {
    SomeScores(survivors, w);
    var scores := ScoresOf(survivors, w);
    var ranked := RankingOf(scores);
    var choice := Choice(scores, incumbent, margin);
    Placement(choice.id, choice.score, if |ranked| > 1 then Some(ranked[1]) else None, Top3(ranked), rejected, w, false)
  }

  function Mix(alpha: real, score: real, average: real): real
  {
    Weigh(alpha, score) + Weigh(1.0 - alpha, average)
  }

  /** The averages after one cycle; nodes without a score keep theirs. */
  function Averaged(ema: map<string, real>, scores: map<string, real>, alpha: real): map<string, real>
  {
    map id | id in ema.Keys + scores.Keys ::
      if id !in scores then ema[id]
      else if id in ema then Mix(alpha, scores[id], ema[id])
      else scores[id]
  }

  lemma AveragedStep(ema: map<string, real>, done: map<string, real>, id: string, score: real, alpha: real)
    requires id !in done
    ensures
      var now := Averaged(ema, done, alpha);
      Averaged(ema, done[id := score], alpha) == now[id := if id in now then Mix(alpha, score, now[id]) else score]
  {
  }

  class DecisionEngine {
    const limits: Limits
    const alpha: real
    const margin: real
    const staticPolicy: StaticPolicy
    var customProfiles: map<SlaClass, Weights>
    var nodeEmaScores: map<string, real>

    constructor (limits: Limits, alpha: real, margin: real, staticPolicy: StaticPolicy)
      ensures this.limits == limits && this.alpha == alpha && this.margin == margin && this.staticPolicy == staticPolicy
      ensures customProfiles == map[] && nodeEmaScores == map[]
    {
      this.limits, this.alpha, this.margin, this.staticPolicy := limits, alpha, margin, staticPolicy;
      customProfiles, nodeEmaScores := map[], map[];
    }

    method UpdateSlaProfiles(profiles: map<SlaClass, Weights>)
      modifies this`customProfiles
      ensures forall c ::
        WeightsFor(customProfiles, c) == if c in profiles then profiles[c] else WeightsFor(old(customProfiles), c)
    {
      customProfiles := customProfiles + profiles;
    }

    method UpdateAverages(ranked: seq<Ranked>, ghost scores: map<string, real>)
      requires Lists(ranked, scores)
      modifies this`nodeEmaScores
      ensures nodeEmaScores == Averaged(old(nodeEmaScores), scores, alpha)
    {
      var i := 0;
      ghost var done: map<string, real> := map[];
      assert nodeEmaScores == Averaged(nodeEmaScores, map[], alpha);
      while i < |ranked|
        invariant 0 <= i <= |ranked|
        invariant done.Keys == set k | 0 <= k < i :: ranked[k].id
        invariant forall id :: id in done ==> id in scores && done[id] == scores[id]
        invariant nodeEmaScores == Averaged(old(nodeEmaScores), done, alpha)
      {
        var (id, score) := (ranked[i].id, ranked[i].score);
        AveragedStep(old(nodeEmaScores), done, id, score, alpha);
        if id in nodeEmaScores {
          nodeEmaScores := nodeEmaScores[id := Mix(alpha, score, nodeEmaScores[id])];
        } else {
          nodeEmaScores := nodeEmaScores[id := score];
        }
        done := done[id := score];
        i := i + 1;
      }
      assert done == scores;
    }

    method Choose(ranked: seq<Ranked>, incumbent: Option<string>, ghost scores: map<string, real>)
      returns (choice: Ranked)
      requires scores != map[] && ranked == RankingOf(scores)
      ensures choice == Choice(scores, incumbent, margin)
    {
      EmptyRanking(ranked, scores);
      choice := ranked[0];
      if incumbent.Some? && incumbent.value != "" && incumbent.value != choice.id {
        var i := 0;
        while i < |ranked| && ranked[i].id != incumbent.value
          invariant 0 <= i <= |ranked| && forall k :: 0 <= k < i ==> ranked[k].id != incumbent.value
        {
          i := i + 1;
        }
        if i < |ranked| {
          var threshold := ranked[i].score * (1.0 - margin);
          if choice.score > threshold {
            choice := ranked[i];
          }
        }
      }
    }

    /** Scores, ranks and chooses among the nodes that passed. */
    method PlaceAmong(survivors: seq<Snapshot>, w: Weights, incumbent: Option<string>, rejected: map<string, Reason>)
      returns (r: Placement)
      requires survivors != []
      modifies this`nodeEmaScores
      ensures r == Scored(survivors, w, incumbent, margin, rejected)
      ensures nodeEmaScores == Averaged(old(nodeEmaScores), ScoresOf(survivors, w), alpha)
    {
      SomeScores(survivors, w);
      var pool := NormalizeCandidates(survivors);
      var ranked := RankCandidates(pool, w);
      var choice := Choose(ranked, incumbent, ScoresOf(survivors, w));
      UpdateAverages(ranked, ScoresOf(survivors, w));
      var runnerUp := if |ranked| > 1 then Some(ranked[1]) else None;
      r := Placement(choice.id, choice.score, runnerUp, Top3(ranked), rejected, w, false);
    }

    /** The decision never depends on the averages, although every cycle updates them. */
    method EvaluatePlacement(d: Demand, candidates: seq<Snapshot>, incumbent: Option<string>) returns (r: Placement)
      modifies this`nodeEmaScores
      ensures
        var (survivors, w) := (Survivors(limits, d, candidates), WeightsFor(customProfiles, d.slaClass));
        if survivors == [] then r == StaticDecision(staticPolicy, d, w) && nodeEmaScores == old(nodeEmaScores)
        else
          && r == Scored(survivors, w, incumbent, margin, Rejections(limits, d, candidates))
          && nodeEmaScores == Averaged(old(nodeEmaScores), ScoresOf(survivors, w), alpha)
    {
      var survivors, rejected := FilterCandidates(limits, d, candidates);
      var w := WeightsFor(customProfiles, d.slaClass);
      if survivors == [] {
        return StaticDecision(staticPolicy, d, w);
      }
      r := PlaceAmong(survivors, w, incumbent, rejected);
    }
  }

  // ---- Independence

  ghost predicate DistinctIds(nodes: seq<Snapshot>)
  {
    forall m, n :: m in nodes && n in nodes && m.nodeId == n.nodeId ==> m == n
  }

  lemma SameLatest(a: seq<Snapshot>, b: seq<Snapshot>)
    requires DistinctIds(a) && forall n :: n in a <==> n in b
    ensures Latest(a) == Latest(b)
  {
    LatestKeys(a);
    LatestKeys(b);
  }

  /** Chosen node, score, runner-up and chain depend on the set of surviving nodes alone: not on the order of the
      candidates, and not on candidates that fail a hard constraint. */
  lemma OrderAndRejectsDoNotMatter(l: Limits, d: Demand, w: Weights, incumbent: Option<string>, margin: real,
    candidates: seq<Snapshot>, others: seq<Snapshot>)
    requires Survivors(l, d, candidates) != [] && DistinctIds(Survivors(l, d, candidates))
    requires forall n :: n in candidates && Passes(l, d, n) <==> n in others && Passes(l, d, n)
    ensures Survivors(l, d, others) != []
    ensures
      Scored(Survivors(l, d, others), w, incumbent, margin, Rejections(l, d, others))
      == Scored(Survivors(l, d, candidates), w, incumbent, margin, Rejections(l, d, candidates))
        .(filteredOut := Rejections(l, d, others))
  {
    var (a, b) := (Survivors(l, d, candidates), Survivors(l, d, others));
    assert a[0] in a && a[0] in b;
    SameLatest(a, b);
  }

  // ---- Dominance and optimality

  /** A survivor that is no worse in every dimension ranks ahead, unless the rounded scores tie and the other one
      has the smaller id. */
  lemma DominantRanksAhead(survivors: seq<Snapshot>, w: Weights, i: nat, j: nat)
    requires w.Valid() && i < |RankingOf(ScoresOf(survivors, w))| && j < |RankingOf(ScoresOf(survivors, w))| && i != j
    requires
      var r := RankingOf(ScoresOf(survivors, w));
      Dominates(Latest(survivors)[r[i].id], Latest(survivors)[r[j].id])
    ensures
      var r := RankingOf(ScoresOf(survivors, w));
      i < j || (r[i].score == r[j].score && Text.Less(r[j].id, r[i].id))
  {
    var r := RankingOf(ScoresOf(survivors, w));
    DominantScoresLower(survivors, w, r[i].id, r[j].id);
    if j < i {
      assert Before(r[j], r[i]);
    }
  }

  lemma BestIsLeast(scores: map<string, real>, id: string)
    requires id in scores
    ensures RankingOf(scores) != [] && RankingOf(scores)[0].id in scores
    ensures scores[RankingOf(scores)[0].id] == RankingOf(scores)[0].score <= scores[id]
  {
    var r := RankingOf(scores);
    EmptyRanking(r, scores);
    var i :| 0 <= i < |r| && r[i].id == id;
    assert i > 0 ==> Before(r[0], r[i]);
  }

  /** Without an incumbent the chosen node's weighted sum is within a millionth of the least one; rounding costs
      no more than that. */
  lemma ChosenIsNearlyOptimal(survivors: seq<Snapshot>, w: Weights, margin: real, rejected: map<string, Reason>,
    id: string)
    requires survivors != [] && id in Pool(survivors)
    ensures
      var chosen := Scored(survivors, w, None, margin, rejected).chosenNode;
      && chosen in Pool(survivors)
      && WeightedSum(Pool(survivors)[chosen], w) <= WeightedSum(Pool(survivors)[id], w) + 0.000001
  {
    SomeScores(survivors, w);
    BestIsLeast(ScoresOf(survivors, w), id);
    var chosen := Scored(survivors, w, None, margin, rejected).chosenNode;
    Round6Near(WeightedSum(Pool(survivors)[chosen], w));
    Round6Near(WeightedSum(Pool(survivors)[id], w));
  }

  /** Either the best node is chosen, or the incumbent stays and is worse by less than the margin; an incumbent
      that is left was beaten by at least the margin. */
  lemma IncumbentWithinMargin(scores: map<string, real>, incumbent: Option<string>, margin: real, id: string)
    requires id in scores
    ensures
      var (choice, best) := (Choice(scores, incumbent, margin), RankingOf(scores)[0]);
      && best.score <= scores[id]
      && choice.id in scores && choice.score == scores[choice.id]
      && (choice == best || (Some(choice.id) == incumbent && best.score > (1.0 - margin) * choice.score))
      && (incumbent.Some? && incumbent.value in scores && incumbent.value != "" && choice.id != incumbent.value ==>
        choice == best && best.score <= (1.0 - margin) * scores[incumbent.value])
  {
    BestIsLeast(scores, id);
  }

  // ---- What a decision says

  /** The nodes with none, one and two others ahead, as far as there are so many. */
  ghost predicate LeadingThree(chain: seq<string>, scores: map<string, real>)
  {
    && |chain| == (if |scores| < 3 then |scores| else 3)
    && forall k :: 0 <= k < |chain| ==> chain[k] in scores && |Ahead(scores, chain[k])| == k
  }

  /** The node with one other ahead, if there is one, and its score. */
  ghost predicate SecondPlace(e: Option<Ranked>, scores: map<string, real>)
  {
    && (e.Some? <==> |scores| >= 2)
    && (e.Some? ==>
      e.value.id in scores && e.value.score == scores[e.value.id] && |Ahead(scores, e.value.id)| == 1)
  }

  lemma RankingLeads(scores: map<string, real>)
    ensures LeadingThree(Top3(RankingOf(scores)), scores)
    ensures SecondPlace(if |RankingOf(scores)| > 1 then Some(RankingOf(scores)[1]) else None, scores)
  {
    RankingIsComplete(scores);
    if |RankingOf(scores)| > 1 {
      RankingPlaces(scores, 1);
    }
    forall k | 0 <= k < |Top3(RankingOf(scores))|
      ensures
        var id := Top3(RankingOf(scores))[k];
        id in scores && |Ahead(scores, id)| == k
    {
      RankingPlaces(scores, k);
    }
  }

  lemma ChoiceHasScore(scores: map<string, real>, incumbent: Option<string>, margin: real)
    requires scores != map[]
    ensures
      var choice := Choice(scores, incumbent, margin);
      choice.id in scores && choice.score == scores[choice.id]
  {
    EmptyRanking(RankingOf(scores), scores);
    RankingPlaces(scores, 0);
  }

  /** The chosen node's own score, the second place as runner-up, the leading three as chain, and what was asked. */
  lemma DecisionMeans(survivors: seq<Snapshot>, w: Weights, incumbent: Option<string>, margin: real,
    rejected: map<string, Reason>)
    requires survivors != []
    ensures
      var (r, scores) := (Scored(survivors, w, incumbent, margin, rejected), ScoresOf(survivors, w));
      && r.chosenNode in scores && r.chosenScore == scores[r.chosenNode]
      && SecondPlace(r.runnerUp, scores) && LeadingThree(r.fallbackChain, scores)
      && r.filteredOut == rejected && r.weights == w && !r.usedFallbackPolicy
  {
    SomeScores(survivors, w);
    RankingLeads(ScoresOf(survivors, w));
    ChoiceHasScore(ScoresOf(survivors, w), incumbent, margin);
  }

  /** The task demands this zone, in whatever case. */
  predicate Demands(d: Demand, zone: string)
  {
    d.dataResidency.Some? && d.dataResidency.value != "" && Text.Lower(d.dataResidency.value) == zone
  }

  /** When nobody passes: the chain configured for the demanded zone, in any case, or else the default chain; its first
      node is chosen and its second one is the runner-up. */
  lemma StaticDecisionMeans(p: StaticPolicy, d: Demand, w: Weights)
    ensures
      var r := StaticDecision(p, d, w);
      && (forall zone :: zone in p.overrides && Demands(d, zone) ==> r.fallbackChain == p.overrides[zone])
      && ((forall zone :: zone in p.overrides ==> !Demands(d, zone)) ==> r.fallbackChain == p.defaultChain)
      && r.chosenNode == (if r.fallbackChain == [] then "cloud-default-fallback" else r.fallbackChain[0])
      && (r.runnerUp.Some? <==> |r.fallbackChain| >= 2)
      && (r.runnerUp.Some? ==> r.runnerUp.value.id == r.fallbackChain[1])
      && r.weights == w && r.usedFallbackPolicy
  {
  }

  /** Without a profile of its own, a class has its default weights. They keep the rule for weights, their sum is one,
      and the greatest is that of latency, or for batch tasks that of cost. */
  lemma DefaultProfiles(c: SlaClass)
    ensures
      var w := WeightsFor(map[], c);
      && w.Valid() && w.lat + w.bw + w.cmp + w.queue + w.cost == 1.0
      && (c == Batch ==> w.cost > w.lat && w.cost > w.bw && w.cost > w.cmp && w.cost > w.queue)
      && (c != Batch ==> w.lat > w.bw && w.lat > w.cmp && w.lat > w.queue && w.lat > w.cost)
      && (c == RealTime ==> w.lat > WeightsFor(map[], Interactive).lat)
  {
  }

  // ---- From the decision to the chain that dispatch tries

  function ChainFor(r: Placement): seq<string>
  {
    Dispatch.ChainOf(Dispatch.Decision(r.chosenNode, r.fallbackChain))
  }

  lemma ChoiceSurvives(survivors: seq<Snapshot>, w: Weights, incumbent: Option<string>, margin: real,
    rejected: map<string, Reason>, id: string)
    requires survivors != []
    requires
      var r := Scored(survivors, w, incumbent, margin, rejected);
      id == r.chosenNode || id in r.fallbackChain
    ensures exists n :: n in survivors && n.nodeId == id
  {
    SomeScores(survivors, w);
    var scores := ScoresOf(survivors, w);
    EmptyRanking(RankingOf(scores), scores);
    LatestKeys(survivors);
    assert id in scores;
    assert id in Latest(survivors);
  }

  /** A scored decision makes dispatch try at most four different nodes, each of which passed every constraint. */
  lemma TriedNodesPassed(l: Limits, d: Demand, candidates: seq<Snapshot>, w: Weights, incumbent: Option<string>,
    margin: real, k: nat)
    requires Survivors(l, d, candidates) != []
    requires k < |ChainFor(Scored(Survivors(l, d, candidates), w, incumbent, margin, Rejections(l, d, candidates)))|
    ensures
      var chain := ChainFor(Scored(Survivors(l, d, candidates), w, incumbent, margin, Rejections(l, d, candidates)));
      && |chain| <= 4 && Dispatch.NoRepeats(chain)
      && exists n :: n in candidates && n.nodeId == chain[k] && Passes(l, d, n)
  {
    var survivors := Survivors(l, d, candidates);
    var r := Scored(survivors, w, incumbent, margin, Rejections(l, d, candidates));
    Dispatch.ChainShape(Dispatch.Decision(r.chosenNode, r.fallbackChain));
    ChoiceSurvives(survivors, w, incumbent, margin, Rejections(l, d, candidates), ChainFor(r)[k]);
  }

  // ---- Exponential averages

  function AveragesFrom(ema: map<string, real>, alpha: real, cycles: seq<map<string, real>>): map<string, real>
  {
    if cycles == [] then ema
    else Averaged(AveragesFrom(ema, alpha, cycles[..|cycles| - 1]), cycles[|cycles| - 1], alpha)
  }

  lemma MixSame(alpha: real, x: real)
    ensures Mix(alpha, x, x) == x
  {
    assert alpha * x + (1.0 - alpha) * x == (alpha + (1.0 - alpha)) * x;
  }

  lemma MixMonotone(alpha: real, x: real, y: real, x': real, y': real)
    requires 0.0 <= alpha <= 1.0 && x <= x' && y <= y'
    ensures Mix(alpha, x, y) <= Mix(alpha, x', y')
  {
    WeighMonotone(alpha, x, x');
    WeighMonotone(1.0 - alpha, y, y');
  }

  lemma MixBetween(alpha: real, x: real, y: real, low: real, high: real)
    requires 0.0 <= alpha <= 1.0 && low <= x <= high && low <= y <= high
    ensures low <= Mix(alpha, x, y) <= high
  {
    MixMonotone(alpha, low, low, x, y);
    MixMonotone(alpha, x, y, high, high);
    MixSame(alpha, low);
    MixSame(alpha, high);
  }

  lemma MixDistance(alpha: real, s: real, y: real, p: real, q: real, d: real)
    requires y - s == Weigh(p, d) && q == (1.0 - alpha) * p
    ensures Mix(alpha, s, y) - s == Weigh(q, d)
  {
    assert alpha * s + (1.0 - alpha) * y - s == (1.0 - alpha) * (y - s);
    assert (1.0 - alpha) * (p * d) == ((1.0 - alpha) * p) * d;
  }

  /** A node has an average exactly if it was ever scored, and it lies between the least and the greatest score. */
  lemma {:induction false} AverageStaysBetween(alpha: real, cycles: seq<map<string, real>>, id: string, low: real,
    high: real)
    requires 0.0 <= alpha <= 1.0
    requires forall k :: 0 <= k < |cycles| && id in cycles[k] ==> low <= cycles[k][id] <= high
    ensures id in AveragesFrom(map[], alpha, cycles) <==> exists k :: 0 <= k < |cycles| && id in cycles[k]
    ensures id in AveragesFrom(map[], alpha, cycles) ==> low <= AveragesFrom(map[], alpha, cycles)[id] <= high
  {
    if cycles != [] {
      var (before, last) := (cycles[..|cycles| - 1], cycles[|cycles| - 1]);
      AverageStaysBetween(alpha, before, id, low, high);
      if id in last && id in AveragesFrom(map[], alpha, before) {
        MixBetween(alpha, last[id], AveragesFrom(map[], alpha, before)[id], low, high);
      }
      if k :| 0 <= k < |before| && id in before[k] {
        assert id in cycles[k];
      }
    }
  }

  function Power(x: real, n: nat): real
  {
    if n == 0 then 1.0 else x * Power(x, n - 1)
  }

  ghost predicate ScoredOrAbsent(cycles: seq<map<string, real>>, id: string, s: real)
  {
    forall k :: 0 <= k < |cycles| && id in cycles[k] ==> cycles[k][id] == s
  }

  function TimesScored(cycles: seq<map<string, real>>, id: string): nat
  {
    if cycles == [] then 0
    else TimesScored(cycles[..|cycles| - 1], id) + if id in cycles[|cycles| - 1] then 1 else 0
  }

  lemma LastAverage(ema: map<string, real>, alpha: real, cycles: seq<map<string, real>>, id: string)
    requires cycles != [] && id in AveragesFrom(ema, alpha, cycles[..|cycles| - 1])
    ensures
      var (before, last) := (AveragesFrom(ema, alpha, cycles[..|cycles| - 1]), cycles[|cycles| - 1]);
      && id in AveragesFrom(ema, alpha, cycles)
      && AveragesFrom(ema, alpha, cycles)[id] == if id in last then Mix(alpha, last[id], before[id]) else before[id]
  {
  }

  lemma {:induction false} AverageDistance(ema: map<string, real>, alpha: real, cycles: seq<map<string, real>>,
    id: string, s: real)
    requires id in ema && ScoredOrAbsent(cycles, id, s)
    ensures id in AveragesFrom(ema, alpha, cycles)
    ensures AveragesFrom(ema, alpha, cycles)[id] - s == Weigh(Power(1.0 - alpha, TimesScored(cycles, id)), ema[id] - s)
  {
    if cycles != [] {
      var (before, last) := (cycles[..|cycles| - 1], cycles[|cycles| - 1]);
      assert ScoredOrAbsent(before, id, s);
      AverageDistance(ema, alpha, before, id, s);
      LastAverage(ema, alpha, cycles, id);
      if id in last {
        assert last[id] == s;
        MixDistance(alpha, s, AveragesFrom(ema, alpha, before)[id], Power(1.0 - alpha, TimesScored(before, id)),
          Power(1.0 - alpha, TimesScored(cycles, id)), ema[id] - s);
      }
    }
  }

  /** Under a constant score the distance shrinks by the factor 1 - alpha in every cycle that scores the node;
      cycles in which it is filtered out change nothing. */
  lemma AverageConverges(ema: map<string, real>, alpha: real, cycles: seq<map<string, real>>, id: string, s: real)
    requires id in ema && ScoredOrAbsent(cycles, id, s)
    ensures id in AveragesFrom(ema, alpha, cycles)
    ensures AveragesFrom(ema, alpha, cycles)[id] - s == Power(1.0 - alpha, TimesScored(cycles, id)) * (ema[id] - s)
  {
    AverageDistance(ema, alpha, cycles, id, s);
  }
}
