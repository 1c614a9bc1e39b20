/** Who outranks whom after fusion and reranking. */
module FusionTheorems {
  import opened Numbers
  import opened Sequences
  import opened Sorting
  import opened Rounding
  import opened Retrieval
  import opened Fusion
  import opened Pipeline
  import opened Wrappers
  import Bm25
  import Bm25Theorems

  // ----- The weight of a ranking -----

  predicate UniqueIds(hits: seq<Hit>) {
    forall i, j | 0 <= i < j < |hits| :: hits[i].chunkId != hits[j].chunkId
  }

  function Share(k: nat, rank: nat): real
    requires rank > 0
  {
    1.0 / (k + rank) as real
  }

  lemma {:induction false} UnlistedWeighsNothing(k: nat, hits: seq<Hit>, id: string)
    requires !Lists(hits, id)
    ensures Weight(k, hits, id) == 0.0
  {
    if hits != [] {
      var n := |hits| - 1;
      assert hits[n].chunkId != id;
      forall i | 0 <= i < n
        ensures hits[..n][i].chunkId != id
      {
        assert hits[i].chunkId != id;
      }
      UnlistedWeighsNothing(k, hits[..n], id);
    }
  }

  /** A ranking that names each chunk once gives it the share of its rank. */
  lemma {:induction false} ListedWeight(k: nat, hits: seq<Hit>, i: nat)
    requires UniqueIds(hits) && i < |hits|
    ensures Weight(k, hits, hits[i].chunkId) == Share(k, i + 1)
  {
    var n := |hits| - 1;
    if i < n {
      ListedWeight(k, hits[..n], i);
    } else {
      forall j | 0 <= j < n
        ensures hits[..n][j].chunkId != hits[n].chunkId
      {
        assert hits[j].chunkId != hits[n].chunkId;
      }
      UnlistedWeighsNothing(k, hits[..n], hits[n].chunkId);
    }
  }

  lemma SharesFall(k: nat, i: nat, j: nat)
    requires 0 < i <= j
    ensures 0.0 < Share(k, j) <= Share(k, i)
  {
  }

  // ----- Two rankings against one -----

  ghost predicate BothBeatOne(k: nat, n: nat) {
    forall i, j, m | 0 < i <= n && 0 < j <= n && 0 < m <= n :: Share(k, i) + Share(k, j) > Share(k, m)
  }

  lemma TwoLastAgainstFirst(k: nat, n: nat)
    requires n > 0
    ensures Share(k, n) + Share(k, n) > Share(k, 1) <==> n <= k + 1
  {
    var first, last := (k + 1) as real, (k + n) as real;
    assert Share(k, n) + Share(k, n) == 2.0 / last;
    assert 2.0 / last > 1.0 / first <==> 2.0 * first > last by {
      CrossMultiply(2.0, last, 1.0, first);
    }
  }

  /** For lists of up to n hits, a chunk in both always beats a chunk in one exactly when n is at most k + 1. */
  lemma BothBeatOneIff(k: nat, n: nat)
    requires n > 0
    ensures BothBeatOne(k, n) <==> n <= k + 1
  {
    hide Share;
    TwoLastAgainstFirst(k, n);
    if n <= k + 1 {
      forall i, j, m | 0 < i <= n && 0 < j <= n && 0 < m <= n
        ensures Share(k, i) + Share(k, j) > Share(k, m)
      {
        SharesFall(k, i, n);
        SharesFall(k, j, n);
        SharesFall(k, 1, m);
      }
    }
  }

  predicate InBoth(a: seq<Hit>, b: seq<Hit>, id: string) {
    Lists(a, id) && Lists(b, id)
  }

  lemma ScoreIs(k: nat, a: seq<Hit>, b: seq<Hit>, id: string) returns (i: nat, j: nat)
    requires UniqueIds(a) && UniqueIds(b) && (Lists(a, id) || Lists(b, id))
    ensures i <= |a| && j <= |b| && (i > 0 || j > 0) && (InBoth(a, b, id) <==> i > 0 && j > 0)
    ensures Score(k, a, b, id) ==
            (if i > 0 then Share(k, i) else 0.0) + (if j > 0 then Share(k, j) else 0.0)
  {
    i, j := 0, 0;
    if Lists(a, id) {
      var x :| 0 <= x < |a| && a[x].chunkId == id;
      ListedWeight(k, a, x);
      i := x + 1;
    } else {
      UnlistedWeighsNothing(k, a, id);
    }
    if Lists(b, id) {
      var y :| 0 <= y < |b| && b[y].chunkId == id;
      ListedWeight(k, b, y);
      j := y + 1;
    } else {
      UnlistedWeighsNothing(k, b, id);
    }
  }

  /** Lists of distinct chunks, no longer than k + 1: being in both always beats being in one. */
  lemma BothOutscoreOne(k: nat, a: seq<Hit>, b: seq<Hit>, x: string, y: string)
    requires UniqueIds(a) && UniqueIds(b) && |a| <= k + 1 && |b| <= k + 1
    requires InBoth(a, b, x) && !InBoth(a, b, y) && (Lists(a, y) || Lists(b, y))
    ensures Score(k, a, b, x) > Score(k, a, b, y)
  {
    hide Share, Weight, Score, Lists;
    var i, j := ScoreIs(k, a, b, x);
    var m, n := ScoreIs(k, a, b, y);
    BothBeatOneIff(k, k + 1);
    assert BothBeatOne(k, k + 1);
    if m > 0 {
      assert Share(k, i) + Share(k, j) > Share(k, m);
    } else {
      assert Share(k, i) + Share(k, j) > Share(k, n);
    }
  }

  /** Fused scores lie between zero and two first ranks. */
  lemma ScoreBound(k: nat, a: seq<Hit>, b: seq<Hit>, id: string)
    requires UniqueIds(a) && UniqueIds(b) && (Lists(a, id) || Lists(b, id))
    ensures 0.0 < Score(k, a, b, id) <= Share(k, 1) + Share(k, 1)
  {
    hide Share, Weight, Score, Lists;
    var i, j := ScoreIs(k, a, b, id);
    SharesFall(k, 1, 1);
    if i > 0 {
      SharesFall(k, 1, i);
    }
    if j > 0 {
      SharesFall(k, 1, j);
    }
  }

  // ----- The fused list -----

  lemma EntriesDiffer(k: int, a: seq<Hit>, b: seq<Hit>)
    requires Divides(k, |a|) && Divides(k, |b|)
    ensures Distinct(Entries(k, a, b))
  {
    hide Order, Score;
    OrderIs(a, b);
  }

  lemma RankingIs(k: int, a: seq<Hit>, b: seq<Hit>)
    requires Divides(k, |a|) && Divides(k, |b|)
    ensures var ranking := Ranking(k, a, b);
            && (forall i | 0 <= i < |ranking| ::
                  ranking[i].0 in Order(a, b) && ranking[i].1 == Score(k, a, b, ranking[i].0))
            && (forall i, j | 0 <= i < j < |ranking| ::
                  ranking[i].0 != ranking[j].0 && ranking[i].1 >= ranking[j].1)
            && (forall id | id in Order(a, b) :: exists i | 0 <= i < |ranking| :: ranking[i].0 == id)
  {
    hide Order, Score, SortDesc;
    var entries := Entries(k, a, b);
    var ranking := Ranking(k, a, b);
    OrderIs(a, b);
    SortSorts(entries, Second);
    EntriesDiffer(k, a, b);
    SortKeepsDistinct(entries, Second);
    forall i | 0 <= i < |ranking|
      ensures ranking[i].0 in Order(a, b) && ranking[i].1 == Score(k, a, b, ranking[i].0)
    {
      assert ranking[i] in multiset(ranking);
      var e :| 0 <= e < |entries| && entries[e] == ranking[i];
      assert entries[e].0 == Order(a, b)[e];
    }
    forall i, j | 0 <= i < j < |ranking|
      ensures ranking[i].0 != ranking[j].0 && ranking[i].1 >= ranking[j].1
    {
      assert ranking[i] != ranking[j];
      assert Second(ranking[i]) >= Second(ranking[j]);
    }
    forall id | id in Order(a, b)
      ensures exists i | 0 <= i < |ranking| :: ranking[i].0 == id
    {
      var e :| 0 <= e < |Order(a, b)| && Order(a, b)[e] == id;
      assert entries[e] in multiset(entries);
      assert entries[e] in multiset(ranking);
      var i :| 0 <= i < |ranking| && ranking[i] == entries[e];
    }
  }

  /** The fused list is ranked by exact score, each listed chunk once, the scores rounded only afterwards. */
  lemma FusedIs(k: int, a: seq<Hit>, b: seq<Hit>)
    requires Divides(k, |a|) && Divides(k, |b|)
    ensures var fused := FusedList(k, a, b);
            && (forall i | 0 <= i < |fused| ::
                  && fused[i].combinedRank == i + 1
                  && (Lists(a, fused[i].chunkId) || Lists(b, fused[i].chunkId))
                  && fused[i].rrfScore == RoundTo(Score(k, a, b, fused[i].chunkId), 1000000))
            && (forall i, j | 0 <= i < j < |fused| ::
                  && fused[i].chunkId != fused[j].chunkId
                  && Score(k, a, b, fused[i].chunkId) >= Score(k, a, b, fused[j].chunkId))
            && (forall id | Lists(a, id) || Lists(b, id) :: exists i | 0 <= i < |fused| :: fused[i].chunkId == id)
  {
    hide Order, Score, SortDesc, RoundTo, Lists;
    var fused := FusedList(k, a, b);
    var entries := Entries(k, a, b);
    var ranking := Ranking(k, a, b);
    OrderIs(a, b);
    RankingIs(k, a, b);
    assert forall i | 0 <= i < |fused| :: fused[i].chunkId == ranking[i].0;
    forall id | Lists(a, id) || Lists(b, id)
      ensures exists i | 0 <= i < |fused| :: fused[i].chunkId == id
    {
      assert id in Order(a, b);
      var i :| 0 <= i < |ranking| && ranking[i].0 == id;
      assert fused[i].chunkId == id;
    }
  }

  // ----- Reranking is a stable partition -----

  predicate Unfavoured(f: Fused) {
    !Favoured(f)
  }

  lemma {:induction false} InsertBehind(x: Fused, front: seq<Fused>, back: seq<Fused>)
    requires forall i | 0 <= i < |front| :: RrfScore(front[i]) > RrfScore(x)
    requires back == [] || RrfScore(x) >= RrfScore(back[0])
    ensures Insert(x, front + back, RrfScore) == front + [x] + back
  {
    if front == [] {
      assert front + back == back;
      assert front + [x] + back == [x] + back;
    } else {
      InsertBehind(x, front[1..], back);
      assert (front + back)[1..] == front[1..] + back;
      assert [front[0]] + (front[1..] + [x] + back) == front + [x] + back;
    }
  }

  /** Scores that do not increase along the list, none of them negative and all below the boost. */
  predicate Tame(fused: seq<Fused>) {
    && (forall i | 0 <= i < |fused| :: 0.0 <= fused[i].rrfScore < BOOST)
    && (forall i, j | 0 <= i < j < |fused| :: fused[i].rrfScore >= fused[j].rrfScore)
  }

  function Front(fused: seq<Fused>): seq<Fused> {
    Map(Filter(fused, Favoured), Boosted)
  }

  function Back(fused: seq<Fused>): seq<Fused> {
    Filter(fused, Unfavoured)
  }

  lemma HalvesUnfold(fused: seq<Fused>)
    requires fused != []
    ensures Front(fused) == (if Favoured(fused[0]) then [Boosted(fused[0])] else []) + Front(fused[1..])
    ensures Back(fused) == (if Favoured(fused[0]) then [] else [fused[0]]) + Back(fused[1..])
  {
    hide Filter, Favoured;
    FilterFirst(fused, Favoured);
    FilterFirst(fused, Unfavoured);
  }

  lemma RerankedUnfolds(fused: seq<Fused>)
    requires fused != []
    ensures Reranked(fused) == Insert(Boosted(fused[0]), Reranked(fused[1..]), RrfScore)
  {
    hide Insert, Boosted;
    assert Map(fused, Boosted)[0] == Boosted(fused[0]);
    assert Map(fused, Boosted)[1..] == Map(fused[1..], Boosted);
  }

  lemma NothingReranked()
    ensures Reranked([]) == [] && Front([]) == [] && Back([]) == []
  {
    assert Map([], Boosted) == [];
  }

  /** The head of a tame list against the two halves of its tail. */
  lemma InsertFirst(x: Fused, rest: seq<Fused>)
    requires Tame([x] + rest)
    ensures var front := Front(rest); var back := Back(rest);
            if Favoured(x) then front + back == [] || RrfScore(Boosted(x)) >= RrfScore((front + back)[0])
            else (forall i | 0 <= i < |front| :: RrfScore(front[i]) > RrfScore(x))
                 && (back == [] || RrfScore(x) >= RrfScore(back[0]))
  {
    hide Favoured, Filter;
    FilterMembers(rest, Favoured);
    FilterMembers(rest, Unfavoured);
    var xs := [x] + rest;
    forall f | f in rest
      ensures 0.0 <= f.rrfScore < BOOST && x.rrfScore >= f.rrfScore
    {
      var i :| 0 <= i < |rest| && rest[i] == f;
      assert xs[i + 1] == f && xs[0] == x;
    }
    assert 0.0 <= xs[0].rrfScore < BOOST;
    var front, back := Front(rest), Back(rest);
    forall i | 0 <= i < |front|
      ensures RrfScore(front[i]) >= BOOST && RrfScore(front[i]) <= x.rrfScore + BOOST
    {
      var f := Filter(rest, Favoured)[i];
      assert f in Filter(rest, Favoured);
      assert f in rest && Favoured(f) && front[i] == Boosted(f);
    }
    if back != [] {
      assert back[0] in back;
    }
    if front == [] {
      assert front + back == back;
    }
  }

  lemma {:induction false} PartitionSorts(fused: seq<Fused>)
    requires Tame(fused)
    ensures Reranked(fused) == Front(fused) + Back(fused)
  {
    hide Favoured, Front, Back, Reranked, Insert;
    if fused == [] {
      NothingReranked();
    } else {
      var x, rest := fused[0], fused[1..];
      PartitionSorts(rest);
      HalvesUnfold(fused);
      RerankedUnfolds(fused);
      assert fused == [x] + rest;
      InsertFirst(x, rest);
      var front, back := Front(rest), Back(rest);
      if Favoured(x) {
        assert [] + (front + back) == front + back;
        InsertBehind(Boosted(x), [], front + back);
        assert [] + [Boosted(x)] + (front + back) == [Boosted(x)] + front + back;
        assert [] + back == back;
      } else {
        InsertBehind(x, front, back);
        assert [] + front == front;
        assert front + [x] + back == front + ([x] + back);
      }
    }
  }

  lemma SmallRoundsSmall(score: real)
    requires 0.0 <= score <= 0.04
    ensures 0.0 <= RoundTo(score, 1000000) < BOOST
  {
    RoundIsMonotone(0.0, score, 1000000);
    RoundIsMonotone(score, 0.04, 1000000);
    assert Times(0.04, 1000000.0) == 40000.0;
    assert Times(0.0, 1000000.0) == 0.0;
    assert Nearest(40000.0) == 40000 && Nearest(0.0) == 0;
  }

  /** With the pipeline's constant, two first ranks score less than the boost, rounded or not. */
  lemma FusedIsTame(a: seq<Hit>, b: seq<Hit>)
    requires UniqueIds(a) && UniqueIds(b)
    ensures Tame(FusedList(DEFAULT_K, a, b))
  {
    hide FusedList, Score, Lists, RoundTo, UniqueIds;
    var fused := FusedList(DEFAULT_K, a, b);
    FusedIs(DEFAULT_K, a, b);
    assert Share(DEFAULT_K, 1) + Share(DEFAULT_K, 1) <= 0.04;
    forall i | 0 <= i < |fused|
      ensures 0.0 <= fused[i].rrfScore < BOOST
    {
      ScoreBound(DEFAULT_K, a, b, fused[i].chunkId);
      SmallRoundsSmall(Score(DEFAULT_K, a, b, fused[i].chunkId));
    }
    forall i, j | 0 <= i < j < |fused|
      ensures fused[i].rrfScore >= fused[j].rrfScore
    {
      RoundIsMonotone(Score(DEFAULT_K, a, b, fused[j].chunkId), Score(DEFAULT_K, a, b, fused[i].chunkId), 1000000);
    }
  }

  /** Reranking what the pipeline fuses is exactly: the boosted chunks in fused order, then the others in fused
      order, even though the fused scores have been rounded to six digits. */
  lemma RerankIsPartition(a: seq<Hit>, b: seq<Hit>)
    requires UniqueIds(a) && UniqueIds(b)
    ensures var fused := FusedList(DEFAULT_K, a, b);
            Reranked(fused) == Map(Filter(fused, Favoured), Boosted) + Filter(fused, Unfavoured)
  {
    FusedIsTame(a, b);
    PartitionSorts(FusedList(DEFAULT_K, a, b));
  }

  // ----- The order of the answer -----

  /** 0 for a boosted chunk in both lists, 1 boosted in one, 2 and 3 for the others. */
  function Class(a: seq<Hit>, b: seq<Hit>, f: Fused): nat {
    (if Favoured(f) then 0 else 2) + (if InBoth(a, b, f.chunkId) then 0 else 1)
  }

  predicate Classed(a: seq<Hit>, b: seq<Hit>, fs: seq<Fused>) {
    forall i, j | 0 <= i < j < |fs| :: Class(a, b, fs[i]) <= Class(a, b, fs[j])
  }

  predicate BothFirst(a: seq<Hit>, b: seq<Hit>, fs: seq<Fused>) {
    forall i, j | 0 <= i < j < |fs| :: InBoth(a, b, fs[j].chunkId) ==> InBoth(a, b, fs[i].chunkId)
  }

  lemma {:induction false} FilterKeepsBothFirst(a: seq<Hit>, b: seq<Hit>, fs: seq<Fused>, p: Fused -> bool)
    requires BothFirst(a, b, fs)
    ensures BothFirst(a, b, Filter(fs, p))
  {
    hide InBoth;
    if fs != [] {
      var front := fs[..|fs| - 1];
      FilterKeepsBothFirst(a, b, front, p);
      FilterMembers(front, p);
      forall i | 0 <= i < |Filter(front, p)|
        ensures InBoth(a, b, fs[|fs| - 1].chunkId) ==> InBoth(a, b, Filter(front, p)[i].chunkId)
      {
        assert Filter(front, p)[i] in front;
      }
    }
  }

  lemma FusedPutsBothFirst(a: seq<Hit>, b: seq<Hit>)
    requires UniqueIds(a) && UniqueIds(b) && |a| <= DEFAULT_K + 1 && |b| <= DEFAULT_K + 1
    ensures BothFirst(a, b, FusedList(DEFAULT_K, a, b))
  {
    hide FusedList, Score, Lists, RoundTo, UniqueIds, InBoth;
    var fused := FusedList(DEFAULT_K, a, b);
    FusedIs(DEFAULT_K, a, b);
    forall i, j | 0 <= i < j < |fused| && InBoth(a, b, fused[j].chunkId)
      ensures InBoth(a, b, fused[i].chunkId)
    {
      if !InBoth(a, b, fused[i].chunkId) {
        BothOutscoreOne(DEFAULT_K, a, b, fused[j].chunkId, fused[i].chunkId);
      }
    }
  }

  lemma BoostKeeps(f: Fused)
    ensures Boosted(f).chunkId == f.chunkId && (Favoured(Boosted(f)) <==> Favoured(f))
  {
    hide Text.Contains;
  }

  lemma HalvesAreClassed(a: seq<Hit>, b: seq<Hit>, front: seq<Fused>, back: seq<Fused>)
    requires BothFirst(a, b, front) && BothFirst(a, b, back)
    requires forall f | f in front :: Favoured(f)
    requires forall f | f in back :: Unfavoured(f)
    ensures Classed(a, b, Map(front, Boosted) + back)
  {
    hide InBoth, Favoured;
    var all := Map(front, Boosted) + back;
    forall i | 0 <= i < |front|
      ensures Favoured(all[i]) && all[i].chunkId == front[i].chunkId
    {
      assert front[i] in front;
      assert all[i] == Map(front, Boosted)[i] == Boosted(front[i]);
      BoostKeeps(front[i]);
    }
    forall i | |front| <= i < |all|
      ensures Unfavoured(all[i]) && all[i] == back[i - |front|]
    {
      assert back[i - |front|] in back;
    }
  }

  /** The candidates of the pipeline, for up to 61 distinct hits on either side: boosted before unboosted, and within
      each, chunks that both searches found before chunks that one found. */
  lemma CandidatesAreClassed(a: seq<Hit>, b: seq<Hit>, topK: int)
    requires UniqueIds(a) && UniqueIds(b) && |a| <= DEFAULT_K + 1 && |b| <= DEFAULT_K + 1
    ensures Classed(a, b, Candidates(a, b, topK))
  {
    hide FusedList, InBoth, Favoured, UniqueIds, Reranked, Filter;
    var fused := FusedList(DEFAULT_K, a, b);
    RerankIsPartition(a, b);
    FusedPutsBothFirst(a, b);
    FilterKeepsBothFirst(a, b, fused, Favoured);
    FilterKeepsBothFirst(a, b, fused, Unfavoured);
    FilterMembers(fused, Favoured);
    FilterMembers(fused, Unfavoured);
    HalvesAreClassed(a, b, Filter(fused, Favoured), Filter(fused, Unfavoured));
  }

  /** What the fusion theorems ask of the keyword side holds of every search of a fresh fit. */
  lemma FreshHitsAreUnique(p: Bm25.Params, chunks: seq<Chunk>, tokens: seq<string>, topK: int,
                           r: Result<seq<Hit>, Bm25.SearchError>)
    requires Bm25Theorems.DistinctChunks(chunks) && Bm25Theorems.InRange(p) && Bm25Theorems.IsLog(p.log)
    requires Bm25.IsAnswer(p, Bm25Theorems.FreshFit(p, chunks), tokens, topK, r)
    ensures r.Success? && UniqueIds(r.value) && (topK >= 0 ==> |r.value| <= topK)
  {
    hide Bm25.IsAnswer, Bm25Theorems.Direct, Bm25Theorems.Shares, Bm25Theorems.FreshFit;
    var picks := Bm25Theorems.SearchIsBruteForce(p, chunks, tokens, topK, r);
    forall i, j | 0 <= i < j < |r.value|
      ensures r.value[i].chunkId != r.value[j].chunkId
    {
      assert picks[i] != picks[j];
    }
  }
}
