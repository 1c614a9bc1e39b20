/** The inverted index of src/agent_runtime/retrieval/bm25.py. */
module Bm25 {
  import opened Wrappers
  import opened Sequences
  import opened Sorting
  import opened Rounding
  import opened Retrieval

  /** The two constants, and the two functions that the index is parametric in. */
  datatype Params = Params(k1: real, b: real, log: real -> real, tokenize: string -> seq<string>)

  datatype Index = Index(
    postings: map<string, set<string>>,
    tf: map<string, map<string, nat>>,
    lengths: map<string, nat>)

  datatype Fitted = Fitted(chunks: map<string, Chunk>, index: Index, avgdl: real, idf: map<string, real>)

  datatype SearchError = ZeroDivision | MissingChunk(chunkId: string)

  const EMPTY := Fitted(map[], Index(map[], map[], map[]), 0.0, map[])

  function Get<K, V>(m: map<K, V>, key: K, default: V): V {
    if key in m then m[key] else default
  }

  // ----- Fitting -----

  function Counts(tokens: seq<string>): map<string, nat> {
    if tokens == [] then map[]
    else
      var before := Counts(tokens[..|tokens| - 1]);
      var token := tokens[|tokens| - 1];
      before[token := Get(before, token, 0) + 1]
  }

  function Posted(postings: map<string, set<string>>, tokens: seq<string>, id: string): map<string, set<string>> {
    if tokens == [] then postings
    else
      var before := Posted(postings, tokens[..|tokens| - 1], id);
      var token := tokens[|tokens| - 1];
      before[token := Get(before, token, {}) + {id}]
  }

  function AddChunk(p: Params, ix: Index, chunk: Chunk): Index {
    var tokens := p.tokenize(chunk.text);
    Index(Posted(ix.postings, tokens, chunk.chunkId),
          ix.tf[chunk.chunkId := Counts(tokens)],
          ix.lengths[chunk.chunkId := |tokens|])
  }

  function AddChunks(p: Params, ix: Index, chunks: seq<Chunk>): Index {
    if chunks == [] then ix
    else AddChunk(p, AddChunks(p, ix, chunks[..|chunks| - 1]), chunks[|chunks| - 1])
  }

  function ById(chunks: seq<Chunk>): map<string, Chunk> {
    if chunks == [] then map[]
    else ById(chunks[..|chunks| - 1])[chunks[|chunks| - 1].chunkId := chunks[|chunks| - 1]]
  }

  function TotalTokens(p: Params, chunks: seq<Chunk>): nat {
    if chunks == [] then 0
    else TotalTokens(p, chunks[..|chunks| - 1]) + |p.tokenize(chunks[|chunks| - 1].text)|
  }

  function AverageLength(p: Params, chunks: seq<Chunk>): real {
    if chunks == [] then 0.0 else TotalTokens(p, chunks) as real / |chunks| as real
  }

  function Idf(p: Params, numDocs: nat, containing: nat): real {
    p.log((numDocs as real - containing as real + 0.5) / (containing as real + 0.5) + 1.0)
  }

  function Idfs(p: Params, numDocs: nat, postings: map<string, set<string>>): map<string, real> {
    map token | token in postings :: Idf(p, numDocs, |postings[token]|)
  }

  /** Fitting replaces the chunks and the average, and adds to whatever was indexed before. */
  function FitOn(p: Params, before: Fitted, chunks: seq<Chunk>): Fitted {
    var index := AddChunks(p, before.index, chunks);
    Fitted(ById(chunks), index, AverageLength(p, chunks), before.idf + Idfs(p, |chunks|, index.postings))
  }

  /** Every posted chunk has been counted, and exactly the posted tokens have a weight. */
  predicate Consistent(f: Fitted) {
    && (forall token | token in f.index.postings :: f.index.postings[token] <= f.index.tf.Keys * f.index.lengths.Keys)
    && f.idf.Keys == f.index.postings.Keys
  }

  // ----- Scoring -----

  predicate IsHit(f: Fitted, token: string, id: string) {
    token in f.idf && id in Get(f.index.postings, token, {})
  }

  predicate Matches(f: Fitted, tokens: seq<string>, id: string) {
    exists i | 0 <= i < |tokens| :: IsHit(f, tokens[i], id)
  }

  function Saturation(p: Params, tf: nat, length: nat, avgdl: real): real
    requires avgdl != 0.0
  {
    tf as real + p.k1 * (1.0 - p.b + p.b * (length as real / avgdl))
  }

  /** Neither of the two divisions is by zero. */
  predicate Defined(p: Params, f: Fitted, token: string, id: string)
    requires Consistent(f) && IsHit(f, token, id)
  {
    f.avgdl != 0.0 && Saturation(p, Get(f.index.tf[id], token, 0), f.index.lengths[id], f.avgdl) != 0.0
  }

  function Gain(p: Params, f: Fitted, token: string, id: string): real
    requires Consistent(f)
  {
    if IsHit(f, token, id) && Defined(p, f, token, id) then
      var tf := Get(f.index.tf[id], token, 0);
      f.idf[token] * (tf as real * (p.k1 + 1.0) / Saturation(p, tf, f.index.lengths[id], f.avgdl))
    else 0.0
  }

  /** The score of a chunk: one gain for every token of the query, repeated tokens included. */
  function Accumulated(p: Params, f: Fitted, tokens: seq<string>, id: string): real
    requires Consistent(f)
  {
    if tokens == [] then 0.0
    else Accumulated(p, f, tokens[..|tokens| - 1], id) + Gain(p, f, tokens[|tokens| - 1], id)
  }

  ghost predicate AllDefined(p: Params, f: Fitted, tokens: seq<string>)
    requires Consistent(f)
  {
    forall i, id | 0 <= i < |tokens| && IsHit(f, tokens[i], id) :: Defined(p, f, tokens[i], id)
  }

  /** The score dictionary after some tokens: the chunks that match, each with its score. */
  ghost predicate Scored(p: Params, f: Fitted, tokens: seq<string>, scores: map<string, real>)
    requires Consistent(f)
  {
    && (forall id :: id in scores <==> Matches(f, tokens, id))
    && (forall id | id in scores :: scores[id] == Accumulated(p, f, tokens, id))
  }

  // ----- Ranking -----

  predicate DistinctIds(items: seq<(string, real)>) {
    forall i, j | 0 <= i < j < |items| :: items[i].0 != items[j].0
  }

  /** The entries of a dictionary in some order. */
  ghost predicate IsListing(items: seq<(string, real)>, scores: map<string, real>) {
    && DistinctIds(items)
    && (forall i | 0 <= i < |items| :: items[i].0 in scores && scores[items[i].0] == items[i].1)
    && (forall id | id in scores :: exists i | 0 <= i < |items| :: items[i].0 == id)
  }

  function HitOf(chunk: Chunk, score: real, rank: nat): Hit {
    Hit(chunk.chunkId, chunk.documentId, chunk.text, RoundTo(score, 10000), rank)
  }

  predicate AllKnown(f: Fitted, items: seq<(string, real)>) {
    forall i | 0 <= i < |items| :: items[i].0 in f.chunks
  }

  /** One hit for every entry, numbered from one; or the first entry whose chunk is gone. */
  predicate Rendered(f: Fitted, items: seq<(string, real)>, r: Result<seq<Hit>, SearchError>) {
    if AllKnown(f, items) then
      && r.Success? && |r.value| == |items|
      && forall i | 0 <= i < |items| :: r.value[i] == HitOf(f.chunks[items[i].0], items[i].1, i + 1)
    else
      exists i | 0 <= i < |items| ::
        items[i].0 !in f.chunks && AllKnown(f, items[..i]) && r == Failure(MissingChunk(items[i].0))
  }

  /** The best k entries of the score dictionary, best first. */
  ghost predicate IsRanking(p: Params, f: Fitted, tokens: seq<string>, items: seq<(string, real)>)
    requires Consistent(f)
  {
    Descending(items, Second) && exists scores :: Scored(p, f, tokens, scores) && IsListing(items, scores)
  }

  ghost predicate IsAnswer(p: Params, f: Fitted, tokens: seq<string>, topK: int, r: Result<seq<Hit>, SearchError>)
    requires Consistent(f)
  {
    if tokens == [] || f.chunks == map[] then r == Success([])
    else if !AllDefined(p, f, tokens) then r == Failure(ZeroDivision)
    else exists items: seq<(string, real)> :: IsRanking(p, f, tokens, items) && Rendered(f, Prefix(items, topK), r)
  }

  // ----- What the retriever's loops rely on -----

  function Entries(order: seq<string>, scores: map<string, real>): seq<(string, real)>
    requires forall id | id in order :: id in scores
  {
    seq(|order|, i requires 0 <= i < |order| => assert order[i] in order; (order[i], scores[order[i]]))
  }

  /** The keys of a dictionary in the order of their insertion. */
  ghost predicate Orders(order: seq<string>, scores: map<string, real>) {
    && (forall i, j | 0 <= i < j < |order| :: order[i] != order[j])
    && (forall id :: id in order <==> id in scores)
  }

  lemma EntriesAreListing(order: seq<string>, scores: map<string, real>)
    requires Orders(order, scores)
    ensures IsListing(Entries(order, scores), scores)
  {
    var items := Entries(order, scores);
    forall id | id in scores
      ensures exists i | 0 <= i < |items| :: items[i].0 == id
    {
      assert id in order;
      var i :| 0 <= i < |order| && order[i] == id;
      assert items[i].0 == id;
    }
  }

  lemma SortedListing(items: seq<(string, real)>, scores: map<string, real>)
    requires IsListing(items, scores)
    ensures IsListing(SortDesc(items, Second), scores) && Descending(SortDesc(items, Second), Second)
  {
    hide SortDesc;
    var sorted := SortDesc(items, Second);
    SortSorts(items, Second);
    SortMembers(items, Second);
    assert Distinct(items);
    SortKeepsDistinct(items, Second);
    forall i | 0 <= i < |sorted|
      ensures sorted[i].0 in scores && scores[sorted[i].0] == sorted[i].1
    {
      assert sorted[i] in multiset(sorted);
      var k :| 0 <= k < |items| && items[k] == sorted[i];
    }
    forall id | id in scores
      ensures exists i | 0 <= i < |sorted| :: sorted[i].0 == id
    {
      var i :| 0 <= i < |items| && items[i].0 == id;
      assert items[i] in sorted;
    }
    forall i, j | 0 <= i < j < |sorted|
      ensures sorted[i].0 != sorted[j].0
    {
      assert sorted[i] != sorted[j];
    }
  }

  lemma RankingIs(p: Params, f: Fitted, tokens: seq<string>, order: seq<string>, scores: map<string, real>)
    requires Consistent(f) && Scored(p, f, tokens, scores) && Orders(order, scores)
    ensures forall id | id in order :: id in scores
    ensures IsRanking(p, f, tokens, SortDesc(Entries(order, scores), Second))
  {
    hide Scored, SortDesc, IsListing;
    EntriesAreListing(order, scores);
    SortedListing(Entries(order, scores), scores);
  }

  lemma NothingScored(p: Params, f: Fitted)
    requires Consistent(f)
    ensures Scored(p, f, [], map[]) && Orders([], map[]) && AllDefined(p, f, [])
  {
  }

  lemma DefinedStep(p: Params, f: Fitted, tokens: seq<string>, n: nat)
    requires Consistent(f) && n < |tokens|
    ensures AllDefined(p, f, tokens[..n + 1]) <==> AllDefined(p, f, tokens[..n]) && AllDefined(p, f, [tokens[n]])
    ensures tokens[n] !in f.idf ==> AllDefined(p, f, [tokens[n]])
  {
    hide Defined, Consistent;
    var longer := tokens[..n + 1];
    if AllDefined(p, f, longer) {
      forall i, id | 0 <= i < n && IsHit(f, tokens[..n][i], id)
        ensures Defined(p, f, tokens[..n][i], id)
      {
        assert IsHit(f, longer[i], id);
      }
      forall i, id | 0 <= i < 1 && IsHit(f, [tokens[n]][i], id)
        ensures Defined(p, f, [tokens[n]][i], id)
      {
        assert IsHit(f, longer[n], id);
      }
    }
    if AllDefined(p, f, tokens[..n]) && AllDefined(p, f, [tokens[n]]) {
      forall i, id | 0 <= i < |longer| && IsHit(f, longer[i], id)
        ensures Defined(p, f, longer[i], id)
      {
        if i < n {
          assert IsHit(f, tokens[..n][i], id);
        } else {
          assert IsHit(f, [tokens[n]][0], id);
        }
      }
    }
  }

  lemma DefinedPrefix(p: Params, f: Fitted, tokens: seq<string>, n: nat)
    requires Consistent(f) && n <= |tokens| && !AllDefined(p, f, tokens[..n])
    ensures !AllDefined(p, f, tokens)
  {
    hide Defined, Consistent;
    var i, id :| 0 <= i < n && IsHit(f, tokens[..n][i], id) && !Defined(p, f, tokens[..n][i], id);
    assert IsHit(f, tokens[i], id);
  }

  lemma MatchesStep(f: Fitted, tokens: seq<string>, n: nat, id: string)
    requires n < |tokens|
    ensures Matches(f, tokens[..n + 1], id) <==> Matches(f, tokens[..n], id) || IsHit(f, tokens[n], id)
  {
    hide IsHit;
    if Matches(f, tokens[..n], id) {
      var i :| 0 <= i < n && IsHit(f, tokens[..n][i], id);
      assert IsHit(f, tokens[..n + 1][i], id);
    }
    if IsHit(f, tokens[n], id) {
      assert IsHit(f, tokens[..n + 1][n], id);
    }
  }

  lemma AccumulatedStep(p: Params, f: Fitted, tokens: seq<string>, n: nat, id: string)
    requires Consistent(f) && n < |tokens|
    ensures Accumulated(p, f, tokens[..n + 1], id) == Accumulated(p, f, tokens[..n], id) + Gain(p, f, tokens[n], id)
  {
    hide Gain;
    assert tokens[..n + 1][..n] == tokens[..n];
  }

  lemma UnknownToken(p: Params, f: Fitted, tokens: seq<string>, n: nat, scores: map<string, real>)
    requires Consistent(f) && n < |tokens| && tokens[n] !in f.idf && Scored(p, f, tokens[..n], scores)
    ensures Scored(p, f, tokens[..n + 1], scores)
  {
    hide Matches, Accumulated;
    forall id
      ensures Matches(f, tokens[..n + 1], id) <==> Matches(f, tokens[..n], id)
      ensures Accumulated(p, f, tokens[..n + 1], id) == Accumulated(p, f, tokens[..n], id)
    {
      MatchesStep(f, tokens, n, id);
      AccumulatedStep(p, f, tokens, n, id);
    }
  }

  lemma OrdersInsert(order: seq<string>, scores: map<string, real>, id: string, score: real)
    requires Orders(order, scores)
    ensures Orders(if id in scores then order else order + [id], scores[id := score])
  {
  }

  lemma NotDefined(p: Params, f: Fitted, token: string, id: string)
    requires Consistent(f) && IsHit(f, token, id) && !Defined(p, f, token, id)
    ensures !AllDefined(p, f, [token])
  {
    assert IsHit(f, [token][0], id);
  }

  lemma {:induction false} UnmatchedScoresNothing(p: Params, f: Fitted, tokens: seq<string>, id: string)
    requires Consistent(f) && !Matches(f, tokens, id)
    ensures Accumulated(p, f, tokens, id) == 0.0
  {
    if tokens != [] {
      var n := |tokens| - 1;
      assert tokens[..n + 1] == tokens;
      MatchesStep(f, tokens, n, id);
      UnmatchedScoresNothing(p, f, tokens[..n], id);
    }
  }

  lemma TokenScored(p: Params, f: Fitted, tokens: seq<string>, n: nat, before: map<string, real>,
                    scores: map<string, real>)
    requires Consistent(f) && n < |tokens| && Scored(p, f, tokens[..n], before)
    requires tokens[n] in f.idf
    requires forall id :: id in scores <==> id in before || id in Get(f.index.postings, tokens[n], {})
    requires forall id | id in scores ::
               scores[id] == Get(before, id, 0.0) +
                             if id in Get(f.index.postings, tokens[n], {}) then Gain(p, f, tokens[n], id) else 0.0
    ensures Scored(p, f, tokens[..n + 1], scores)
  {
    hide Matches, Accumulated;
    forall id
      ensures id in scores <==> Matches(f, tokens[..n + 1], id)
      ensures id in scores ==> scores[id] == Accumulated(p, f, tokens[..n + 1], id)
    {
      MatchesStep(f, tokens, n, id);
      AccumulatedStep(p, f, tokens, n, id);
      if id !in before {
        UnmatchedScoresNothing(p, f, tokens[..n], id);
      }
    }
  }

  lemma FirstStep(postings: map<string, set<string>>, id: string)
    ensures Counts([]) == map[] && Posted(postings, [], id) == postings
  {
  }

  lemma CountsStep(tokens: seq<string>, j: nat)
    requires j < |tokens|
    ensures Counts(tokens[..j + 1]) == Counts(tokens[..j])[tokens[j] := Get(Counts(tokens[..j]), tokens[j], 0) + 1]
  {
    assert tokens[..j + 1][..j] == tokens[..j];
  }

  lemma PostedStep(postings: map<string, set<string>>, tokens: seq<string>, id: string, j: nat)
    requires j < |tokens|
    ensures var before := Posted(postings, tokens[..j], id); var token := tokens[j];
            Posted(postings, tokens[..j + 1], id) ==
            if token in before then before[token := before[token] + {id}] else before[token := {}][token := {} + {id}]
  {
    assert tokens[..j + 1][..j] == tokens[..j];
  }

  lemma Overwrite<K, V>(m: map<K, V>, key: K, a: V, b: V)
    ensures m[key := a][key := b] == m[key := b]
  {
  }

  lemma StartOfChunks(p: Params, ix: Index)
    ensures AddChunks(p, ix, []) == ix && TotalTokens(p, []) == 0
  {
  }

  lemma ChunksStep(p: Params, ix: Index, chunks: seq<Chunk>, i: nat)
    requires i < |chunks|
    ensures AddChunks(p, ix, chunks[..i + 1]) == AddChunk(p, AddChunks(p, ix, chunks[..i]), chunks[i])
    ensures TotalTokens(p, chunks[..i + 1]) == TotalTokens(p, chunks[..i]) + |p.tokenize(chunks[i].text)|
  {
    assert chunks[..i + 1][..i] == chunks[..i];
  }

  // ----- The retriever -----

  class BM25Retriever {
    const p: Params
    var chunks: map<string, Chunk>
    var invertedIndex: map<string, set<string>>
    var chunkTf: map<string, map<string, nat>>
    var chunkLengths: map<string, nat>
    var avgdl: real
    var idf: map<string, real>

    function View(): Fitted
      reads this
    {
      Fitted(chunks, Index(invertedIndex, chunkTf, chunkLengths), avgdl, idf)
    }

    constructor (p: Params)
      ensures this.p == p && View() == EMPTY
    {
      this.p := p;
      chunks, invertedIndex, chunkTf, chunkLengths, avgdl, idf := map[], map[], map[], map[], 0.0, map[];
    }

    method IndexChunk(chunk: Chunk) returns (length: nat)
      modifies this`invertedIndex, this`chunkTf, this`chunkLengths
      ensures View().index == AddChunk(p, old(View().index), chunk)
      ensures length == |p.tokenize(chunk.text)|
    {
      hide Counts, Posted, Get;
      var id := chunk.chunkId;
      var tokens := p.tokenize(chunk.text);
      length := |tokens|;
      chunkLengths := chunkLengths[id := |tokens|];
      chunkTf := chunkTf[id := map[]];
      FirstStep(old(invertedIndex), id);
      for j := 0 to |tokens|
        invariant chunkTf == old(chunkTf)[id := Counts(tokens[..j])]
        invariant invertedIndex == Posted(old(invertedIndex), tokens[..j], id)
        invariant chunkLengths == old(chunkLengths)[id := |tokens|]
      {
        var token := tokens[j];
        CountsStep(tokens, j);
        PostedStep(old(invertedIndex), tokens, id, j);
        Overwrite(old(chunkTf), id, chunkTf[id], Counts(tokens[..j + 1]));
        chunkTf := chunkTf[id := chunkTf[id][token := Get(chunkTf[id], token, 0) + 1]];
        if token !in invertedIndex {
          invertedIndex := invertedIndex[token := {}];
        }
        invertedIndex := invertedIndex[token := invertedIndex[token] + {id}];
      }
      assert tokens[..|tokens|] == tokens;
    }

    method UpdateIdf(numDocs: nat)
      modifies this`idf
      ensures idf == old(idf) + Idfs(p, numDocs, invertedIndex)
    {
      hide Idf;
      var todo := invertedIndex.Keys;
      while todo != {}
        invariant todo <= invertedIndex.Keys
        invariant idf.Keys == old(idf).Keys + (invertedIndex.Keys - todo)
        invariant forall t | t in invertedIndex.Keys - todo :: idf[t] == Idf(p, numDocs, |invertedIndex[t]|)
        invariant forall t | t in old(idf) && (t in todo || t !in invertedIndex) :: idf[t] == old(idf)[t]
      {
        var token :| token in todo;
        idf := idf[token := Idf(p, numDocs, |invertedIndex[token]|)];
        todo := todo - {token};
      }
    }

    method Fit(newChunks: seq<Chunk>)
      modifies this
      ensures View() == FitOn(p, old(View()), newChunks)
    {
      hide AddChunk, AddChunks, TotalTokens, ById, Idfs;
      chunks := ById(newChunks);
      var total := 0;
      StartOfChunks(p, old(View().index));
      for i := 0 to |newChunks|
        invariant chunks == ById(newChunks) && idf == old(idf)
        invariant View().index == AddChunks(p, old(View().index), newChunks[..i])
        invariant total == TotalTokens(p, newChunks[..i])
      {
        ChunksStep(p, old(View().index), newChunks, i);
        var length := IndexChunk(newChunks[i]);
        total := total + length;
      }
      assert newChunks[..|newChunks|] == newChunks;
      var numDocs := |newChunks|;
      avgdl := if numDocs > 0 then total as real / numDocs as real else 0.0;
      UpdateIdf(numDocs);
    }

    method GainOf(token: string, id: string) returns (gain: real, ok: bool)
      requires Consistent(View()) && IsHit(View(), token, id)
      ensures ok <==> Defined(p, View(), token, id)
      ensures ok ==> gain == Gain(p, View(), token, id)
    {
      var tf := Get(chunkTf[id], token, 0);
      var docLen := chunkLengths[id];
      var numerator := tf as real * (p.k1 + 1.0);
      if avgdl == 0.0 {
        return 0.0, false;
      }
      var denominator := tf as real + p.k1 * (1.0 - p.b + p.b * (docLen as real / avgdl));
      if denominator == 0.0 {
        return 0.0, false;
      }
      return idf[token] * (numerator / denominator), true;
    }

    /** One token of the query: add its gain to every posted chunk, in whatever order the set yields them. */
    method ScoreToken(tokens: seq<string>, n: nat, before: map<string, real>, listed: seq<string>)
      returns (scores: map<string, real>, order: seq<string>, ok: bool)
      requires Consistent(View()) && n < |tokens| && tokens[n] in idf
      requires Scored(p, View(), tokens[..n], before) && Orders(listed, before)
      ensures ok ==> Scored(p, View(), tokens[..n + 1], scores) && Orders(order, scores)
      ensures ok <==> AllDefined(p, View(), [tokens[n]])
    {
      hide Defined, Gain, Scored, Orders, Consistent;
      var token := tokens[n];
      scores, order, ok := before, listed, true;
      var targets := Get(invertedIndex, token, {});
      var todo := targets;
      while todo != {}
        invariant todo <= targets
        invariant Orders(order, scores)
        invariant scores.Keys == before.Keys + (targets - todo)
        invariant forall id | id in scores ::
                    scores[id] == Get(before, id, 0.0) +
                                  if id in targets - todo then Gain(p, View(), token, id) else 0.0
        invariant forall id | id in targets - todo :: Defined(p, View(), token, id)
      {
        var id :| id in todo;
        assert IsHit(View(), token, id);
        var gain, defined := GainOf(token, id);
        if !defined {
          NotDefined(p, View(), token, id);
          ok := false;
          return;
        }
        OrdersInsert(order, scores, id, Get(scores, id, 0.0) + gain);
        if id !in scores {
          order := order + [id];
        }
        scores := scores[id := Get(scores, id, 0.0) + gain];
        todo := todo - {id};
      }
      TokenScored(p, View(), tokens, n, before, scores);
    }

    method ScoreTokens(tokens: seq<string>) returns (scores: map<string, real>, order: seq<string>, ok: bool)
      requires Consistent(View())
      ensures ok ==> Scored(p, View(), tokens, scores) && Orders(order, scores)
      ensures ok <==> AllDefined(p, View(), tokens)
    {
      hide Scored, Orders, Consistent, AllDefined, IsHit;
      scores, order, ok := map[], [], true;
      NothingScored(p, View());
      for n := 0 to |tokens|
        invariant Scored(p, View(), tokens[..n], scores) && Orders(order, scores) && ok
        invariant AllDefined(p, View(), tokens[..n])
      {
        DefinedStep(p, View(), tokens, n);
        if tokens[n] in idf {
          scores, order, ok := ScoreToken(tokens, n, scores, order);
          if !ok {
            DefinedPrefix(p, View(), tokens, n + 1);
            return;
          }
        } else {
          UnknownToken(p, View(), tokens, n, scores);
        }
      }
      assert tokens[..|tokens|] == tokens;
    }

    method Search(query: string, topK: int) returns (r: Result<seq<Hit>, SearchError>)
      requires Consistent(View())
      ensures IsAnswer(p, View(), p.tokenize(query), topK, r)
    {
      hide Scored, Orders, Consistent, AllDefined, HitOf;
      var tokens := p.tokenize(query);
      if tokens == [] || chunks == map[] {
        return Success([]);
      }
      var scores, order, ok := ScoreTokens(tokens);
      if !ok {
        return Failure(ZeroDivision);
      }
      RankingIs(p, View(), tokens, order, scores);
      var ranked := SortDesc(Entries(order, scores), Second);
      var top := Prefix(ranked, topK);
      var hits := [];
      for i := 0 to |top|
        invariant |hits| == i
        invariant forall k | 0 <= k < i :: top[k].0 in chunks && hits[k] == HitOf(chunks[top[k].0], top[k].1, k + 1)
      {
        if top[i].0 !in chunks {
          return Failure(MissingChunk(top[i].0));
        }
        hits := hits + [HitOf(chunks[top[i].0], top[i].1, i + 1)];
      }
      return Success(hits);
    }
  }
}
