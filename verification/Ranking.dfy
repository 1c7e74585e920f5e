/** The ranking: by score, and by node id among equal scores (decision_engine/scorer.py). */
module Ranking {
  import opened Scoring
  import Text

  datatype Ranked = Ranked(id: string, score: real)

  predicate Before(a: Ranked, b: Ranked)
  {
    a.score < b.score || (a.score == b.score && Text.Less(a.id, b.id))
  }

  lemma BeforeTransitive(a: Ranked, b: Ranked, c: Ranked)
    requires Before(a, b) && Before(b, c)
    ensures Before(a, c)
  {
    if a.score == b.score && b.score == c.score {
      Text.LessTransitive(a.id, b.id, c.id);
    }
  }

  lemma BeforeTotal(a: Ranked, b: Ranked)
    ensures !Before(a, a)
    ensures Before(a, b) ==> !Before(b, a)
    ensures a.id != b.id ==> Before(a, b) || Before(b, a)
  {
    Text.LessIrreflexive(a.id);
    Text.LessTotal(a.id, b.id);
    if Before(a, b) && Before(b, a) {
      BeforeTransitive(a, b, a);
    }
  }

  ghost predicate Sorted(r: seq<Ranked>)
  {
    forall i, j :: 0 <= i < j < |r| ==> Before(r[i], r[j])
  }

  /** Exactly the entries of `scores`, each once. */
  ghost predicate Lists(r: seq<Ranked>, scores: map<string, real>)
  {
    && (forall i :: 0 <= i < |r| ==> r[i].id in scores && scores[r[i].id] == r[i].score)
    && (forall id :: id in scores ==> exists i :: 0 <= i < |r| && r[i].id == id)
    && (forall i, j :: 0 <= i < j < |r| ==> r[i].id != r[j].id)
  }

  ghost predicate IsRanking(r: seq<Ranked>, scores: map<string, real>)
  {
    Sorted(r) && Lists(r, scores)
  }

  function Insert(r: seq<Ranked>, e: Ranked): seq<Ranked>
  {
    if r != [] && Before(r[0], e) then [r[0]] + Insert(r[1..], e) else [e] + r
  }

  /** Insertion puts the new entry somewhere and leaves the others in place around it. */
  lemma {:induction false} InsertPlaces(r: seq<Ranked>, e: Ranked) returns (k: nat)
    ensures k <= |r| && Insert(r, e) == r[..k] + [e] + r[k..]
    ensures (forall i :: 0 <= i < k ==> Before(r[i], e)) && (k < |r| ==> !Before(r[k], e))
  {
    if r != [] && Before(r[0], e) {
      var m := InsertPlaces(r[1..], e);
      k := m + 1;
      assert r[..k] == [r[0]] + r[1..][..m] && r[k..] == r[1..][m..];
      forall i | 0 <= i < k ensures Before(r[i], e) {
        assert i > 0 ==> r[i] == r[1..][i - 1];
      }
    } else {
      k := 0;
    }
  }

  lemma InsertSorts(r: seq<Ranked>, e: Ranked)
    requires Sorted(r) && forall i :: 0 <= i < |r| ==> r[i].id != e.id
    ensures Sorted(Insert(r, e))
  {
    var k := InsertPlaces(r, e);
    forall i | k <= i < |r| ensures Before(e, r[i]) {
      BeforeTotal(e, r[k]);
      if i > k {
        BeforeTransitive(e, r[k], r[i]);
      }
    }
  }

  ghost predicate Inserted(s: seq<Ranked>, r: seq<Ranked>, e: Ranked, k: nat)
  {
    && k <= |r| && |s| == |r| + 1 && s[k] == e
    && (forall i :: 0 <= i < k ==> s[i] == r[i])
    && (forall i :: k < i < |s| ==> s[i] == r[i - 1])
  }

  lemma InsertedCovers(s: seq<Ranked>, r: seq<Ranked>, scores: map<string, real>, e: Ranked, k: nat, id: string)
    requires Inserted(s, r, e, k) && Lists(r, scores) && (id in scores || id == e.id)
    ensures exists i :: 0 <= i < |s| && s[i].id == id
  {
    if id == e.id {
      assert s[k].id == id;
    } else {
      var i :| 0 <= i < |r| && r[i].id == id;
      if i < k {
        assert s[i] == r[i];
      } else {
        assert s[i + 1] == r[i];
      }
    }
  }

  /** Where the entry at place `i` comes from. */
  function Origin(i: int, k: int): int { if i < k then i else i - 1 }

  lemma ListsInserted(s: seq<Ranked>, r: seq<Ranked>, scores: map<string, real>, e: Ranked, k: nat)
    requires Inserted(s, r, e, k) && Lists(r, scores) && e.id !in scores
    ensures Lists(s, scores[e.id := e.score])
  {
    var all := scores[e.id := e.score];
    forall id | id in all ensures exists i :: 0 <= i < |s| && s[i].id == id {
      InsertedCovers(s, r, scores, e, k, id);
    }
    forall i | 0 <= i < |s| ensures s[i].id in all && all[s[i].id] == s[i].score {
      assert i != k ==> s[i] == r[Origin(i, k)];
    }
    forall i, j | 0 <= i < j < |s| ensures s[i].id != s[j].id {
      assert i != k ==> s[i] == r[Origin(i, k)];
      assert j != k ==> s[j] == r[Origin(j, k)];
    }
  }

  lemma InsertLists(r: seq<Ranked>, scores: map<string, real>, e: Ranked)
    requires Lists(r, scores) && e.id !in scores
    ensures Lists(Insert(r, e), scores[e.id := e.score])
  {
    var k := InsertPlaces(r, e);
    ListsInserted(r[..k] + [e] + r[k..], r, scores, e, k);
  }

  lemma InsertRanks(r: seq<Ranked>, scores: map<string, real>, e: Ranked)
    requires IsRanking(r, scores) && e.id !in scores
    ensures IsRanking(Insert(r, e), scores[e.id := e.score])
  {
    InsertLists(r, scores, e);
    forall i | 0 <= i < |r| ensures r[i].id != e.id {
      assert r[i].id in scores;
    }
    InsertSorts(r, e);
  }

  lemma {:induction false} FindRanking(scores: map<string, real>) returns (r: seq<Ranked>)
    ensures IsRanking(r, scores)
    decreases scores.Keys
  {
    if scores == map[] {
      r := [];
    } else {
      var id :| id in scores;
      var rest := scores - {id};
      assert rest.Keys < scores.Keys;
      r := FindRanking(rest);
      InsertRanks(r, rest, Ranked(id, scores[id]));
      assert rest[id := scores[id]] == scores;
      r := Insert(r, Ranked(id, scores[id]));
    }
  }

  lemma EmptyRanking(r: seq<Ranked>, scores: map<string, real>)
    requires Lists(r, scores)
    ensures r == [] <==> scores == map[]
  {
    if r != [] {
      assert r[0].id in scores;
    }
    if scores != map[] {
      var id :| id in scores;
      assert exists i :: 0 <= i < |r| && r[i].id == id;
    }
  }

  lemma SameHead(r: seq<Ranked>, s: seq<Ranked>, scores: map<string, real>)
    requires IsRanking(r, scores) && IsRanking(s, scores)
    ensures r == [] <==> s == []
    ensures r != [] ==> r[0] == s[0]
  {
    EmptyRanking(r, scores);
    EmptyRanking(s, scores);
    if r != [] {
      assert r[0].id in scores && s[0].id in scores;
      var k :| 0 <= k < |s| && s[k].id == r[0].id;
      var l :| 0 <= l < |r| && r[l].id == s[0].id;
      assert s[k] == r[0] && r[l] == s[0];
      BeforeTotal(r[0], s[0]);
    }
  }

  lemma TailRanks(r: seq<Ranked>, scores: map<string, real>)
    requires IsRanking(r, scores) && r != []
    ensures IsRanking(r[1..], scores - {r[0].id})
  {
    forall id | id in scores - {r[0].id} ensures exists i :: 0 <= i < |r[1..]| && r[1..][i].id == id {
      var i :| 0 <= i < |r| && r[i].id == id;
      assert r[1..][i - 1].id == id;
    }
  }

  /** Scores determine their ranking. */
  lemma {:induction false} RankingUnique(r: seq<Ranked>, s: seq<Ranked>, scores: map<string, real>)
    requires IsRanking(r, scores) && IsRanking(s, scores)
    ensures r == s
  {
    SameHead(r, s, scores);
    if r != [] {
      TailRanks(r, scores);
      TailRanks(s, scores);
      RankingUnique(r[1..], s[1..], scores - {r[0].id});
      assert r == [r[0]] + r[1..] && s == [s[0]] + s[1..];
    }
  }

  ghost function RankingOf(scores: map<string, real>): (r: seq<Ranked>)
    ensures IsRanking(r, scores)
  {
    assert exists r :: IsRanking(r, scores) by {
      var r := FindRanking(scores);
    }
    var r :| IsRanking(r, scores);
    r
  }

  /** The nodes that rank before this one: those with a lower score, and those with the same score and a smaller id. */
  ghost function Ahead(scores: map<string, real>, id: string): set<string>
    requires id in scores
  {
    set x | x in scores && (scores[x] < scores[id] || (scores[x] == scores[id] && Text.Less(x, id)))
  }

  lemma {:induction false} DistinctIdsCount(r: seq<Ranked>)
    requires forall i, j :: 0 <= i < j < |r| ==> r[i].id != r[j].id
    ensures |set i | 0 <= i < |r| :: r[i].id| == |r|
  {
    if r != [] {
      var before := r[..|r| - 1];
      DistinctIdsCount(before);
      var (all, some) := (set i | 0 <= i < |r| :: r[i].id, set i | 0 <= i < |before| :: before[i].id);
      assert forall i :: 0 <= i < |before| ==> before[i] == r[i];
      assert all == some + {r[|r| - 1].id};
    }
  }

  lemma AheadArePlacedBefore(scores: map<string, real>, r: seq<Ranked>, k: nat)
    requires IsRanking(r, scores) && k < |r|
    ensures r[k].id in scores && Ahead(scores, r[k].id) == set i | 0 <= i < k :: r[..k][i].id
  {
    var places := set i | 0 <= i < k :: r[..k][i].id;
    forall x | x in Ahead(scores, r[k].id) ensures x in places {
      var i :| 0 <= i < |r| && r[i].id == x;
      BeforeTotal(r[i], r[k]);
      assert i < k;
      assert r[..k][i] == r[i];
    }
    forall x | x in places ensures x in Ahead(scores, r[k].id) {
      var i :| 0 <= i < k && r[..k][i].id == x;
      assert r[..k][i] == r[i] && Before(r[i], r[k]);
    }
  }

  /** Place `k` of the ranking belongs to the node with exactly `k` others ahead, with its score. */
  lemma RankingPlaces(scores: map<string, real>, k: nat)
    requires k < |RankingOf(scores)|
    ensures
      var e := RankingOf(scores)[k];
      e.id in scores && e.score == scores[e.id] && |Ahead(scores, e.id)| == k
  {
    var r := RankingOf(scores);
    AheadArePlacedBefore(scores, r, k);
    DistinctIdsCount(r[..k]);
    assert (set i | 0 <= i < k :: r[..k][i].id) == set i | 0 <= i < |r[..k]| :: r[..k][i].id;
  }

  lemma RankingIsComplete(scores: map<string, real>)
    ensures |RankingOf(scores)| == |scores|
  {
    var r := RankingOf(scores);
    DistinctIdsCount(r);
    assert (set i | 0 <= i < |r| :: r[i].id) == scores.Keys;
  }

  function IdsOf(scores: seq<Ranked>): set<string>
  {
    set e | e in scores :: e.id
  }

  /** `done` holds the first `i` scores. */
  ghost predicate Holds(done: map<string, real>, scores: seq<Ranked>, i: nat)
    requires i <= |scores|
  {
    done.Keys == IdsOf(scores[..i]) && forall k :: 0 <= k < i ==>
      scores[k].id in done && done[scores[k].id] == scores[k].score
  }

  lemma HoldsMore(done: map<string, real>, scores: seq<Ranked>, all: map<string, real>, i: nat)
    requires i < |scores| && Lists(scores, all) && Holds(done, scores, i)
    ensures scores[i].id !in done && Holds(done[scores[i].id := scores[i].score], scores, i + 1)
  {
    assert scores[..i + 1] == scores[..i] + [scores[i]];
    assert IdsOf(scores[..i + 1]) == IdsOf(scores[..i]) + {scores[i].id};
  }

  lemma HoldsAll(done: map<string, real>, scores: seq<Ranked>, all: map<string, real>)
    requires Lists(scores, all) && Holds(done, scores, |scores|)
    ensures done == all
  {
    assert scores[..|scores|] == scores;
    forall id | id in all ensures id in done && done[id] == all[id] {
      var k :| 0 <= k < |scores| && scores[k].id == id;
    }
  }

  /** The sort of the list of scores, by insertion. */
  method SortScores(scores: seq<Ranked>, ghost all: map<string, real>) returns (ranked: seq<Ranked>)
    requires Lists(scores, all)
    ensures IsRanking(ranked, all)
  {
    ranked := [];
    ghost var done: map<string, real> := map[];
    var i := 0;
    while i < |scores|
      invariant 0 <= i <= |scores| && IsRanking(ranked, done) && Holds(done, scores, i)
    {
      HoldsMore(done, scores, all, i);
      InsertRanks(ranked, done, scores[i]);
      ranked := Insert(ranked, scores[i]);
      done := done[scores[i].id := scores[i].score];
      i := i + 1;
    }
    HoldsAll(done, scores, all);
  }

  method RankCandidates(pool: map<string, Metrics>, w: Weights) returns (ranked: seq<Ranked>)
    ensures ranked == RankingOf(Scores(pool, w))
  {
    var scores: seq<Ranked> := [];
    ghost var done: map<string, real> := map[];
    var ids := pool.Keys;
    while ids != {}
      invariant ids <= pool.Keys && done.Keys == pool.Keys - ids
      invariant forall id :: id in done ==> done[id] == Score(pool[id], w)
      invariant Lists(scores, done)
      decreases |ids|
    {
      var id :| id in ids;
      var e := Ranked(id, Score(pool[id], w));
      ListsInserted(scores + [e], scores, done, e, |scores|);
      scores := scores + [e];
      done := done[id := e.score];
      ids := ids - {id};
    }
    assert done == Scores(pool, w);
    ranked := SortScores(scores, done);
    RankingUnique(ranked, RankingOf(done), done);
  }
}
