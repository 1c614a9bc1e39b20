/** The inverted index against brute force: a fresh retriever scores each chunk as if it looked at the text alone. */
module Bm25Theorems {
  import opened Wrappers
  import opened Sequences
  import opened Sorting
  import opened Rounding
  import opened Retrieval
  import opened Bm25

  predicate DistinctChunks(chunks: seq<Chunk>) {
    forall i, j | 0 <= i < j < |chunks| :: chunks[i].chunkId != chunks[j].chunkId
  }

  function TokensOf(p: Params, chunk: Chunk): seq<string> {
    p.tokenize(chunk.text)
  }

  // ----- What indexing records -----

  lemma {:induction false} CountsCount(tokens: seq<string>, token: string)
    ensures Get(Counts(tokens), token, 0) == multiset(tokens)[token]
  {
    if tokens != [] {
      var n := |tokens| - 1;
      CountsCount(tokens[..n], token);
      CountsCount(tokens[..n], tokens[n]);
      assert tokens == tokens[..n] + [tokens[n]];
    }
  }

  lemma {:induction false} PostedPosts(postings: map<string, set<string>>, tokens: seq<string>, id: string,
                                       token: string)
    ensures var posted := Posted(postings, tokens, id);
            && Get(posted, token, {}) == Get(postings, token, {}) + (if token in tokens then {id} else {})
            && (token in posted <==> token in postings || token in tokens)
  {
    if tokens != [] {
      var n := |tokens| - 1;
      PostedPosts(postings, tokens[..n], id, token);
      assert tokens == tokens[..n] + [tokens[n]];
    }
  }

  /** The chunks whose text contains the token. */
  function DocFreq(p: Params, chunks: seq<Chunk>, token: string): nat {
    if chunks == [] then 0
    else DocFreq(p, chunks[..|chunks| - 1], token) + if token in TokensOf(p, chunks[|chunks| - 1]) then 1 else 0
  }

  function Fresh(p: Params, chunks: seq<Chunk>): Index {
    AddChunks(p, EMPTY.index, chunks)
  }

  predicate RecordsChunk(p: Params, ix: Index, chunk: Chunk) {
    && chunk.chunkId in ix.tf && ix.tf[chunk.chunkId] == Counts(TokensOf(p, chunk))
    && chunk.chunkId in ix.lengths && ix.lengths[chunk.chunkId] == |TokensOf(p, chunk)|
  }

  lemma {:induction false} RecordsAll(p: Params, chunks: seq<Chunk>, k: nat)
    requires DistinctChunks(chunks) && k < |chunks|
    ensures RecordsChunk(p, Fresh(p, chunks), chunks[k])
  {
    hide Counts, Posted;
    if k < |chunks| - 1 {
      RecordsAll(p, chunks[..|chunks| - 1], k);
    }
  }

  lemma {:induction false} PostsAll(p: Params, chunks: seq<Chunk>, token: string)
    ensures forall id :: id in Get(Fresh(p, chunks).postings, token, {}) <==>
                         exists k | 0 <= k < |chunks| :: chunks[k].chunkId == id && token in TokensOf(p, chunks[k])
    ensures token in Fresh(p, chunks).postings <==> exists k | 0 <= k < |chunks| :: token in TokensOf(p, chunks[k])
  {
    hide Counts, Posted;
    if chunks != [] {
      var n := |chunks| - 1;
      PostsAll(p, chunks[..n], token);
      PostedPosts(Fresh(p, chunks[..n]).postings, TokensOf(p, chunks[n]), chunks[n].chunkId, token);
      assert forall k | 0 <= k < n :: chunks[..n][k] == chunks[k];
      if k :| 0 <= k < n && token in TokensOf(p, chunks[..n][k]) {
        assert token in TokensOf(p, chunks[k]);
      }
    }
  }

  lemma {:induction false} PostingsCount(p: Params, chunks: seq<Chunk>, token: string)
    requires DistinctChunks(chunks)
    ensures |Get(Fresh(p, chunks).postings, token, {})| == DocFreq(p, chunks, token)
  {
    hide Counts, Posted;
    if chunks != [] {
      var n := |chunks| - 1;
      PostingsCount(p, chunks[..n], token);
      PostsAll(p, chunks[..n], token);
      PostedPosts(Fresh(p, chunks[..n]).postings, TokensOf(p, chunks[n]), chunks[n].chunkId, token);
    }
  }

  lemma {:induction false} ByIdIs(chunks: seq<Chunk>)
    ensures forall id :: id in ById(chunks) <==> exists k | 0 <= k < |chunks| :: chunks[k].chunkId == id
    ensures DistinctChunks(chunks) ==> forall k | 0 <= k < |chunks| :: ById(chunks)[chunks[k].chunkId] == chunks[k]
  {
    if chunks != [] {
      var n := |chunks| - 1;
      ByIdIs(chunks[..n]);
      assert forall k | 0 <= k < n :: chunks[..n][k] == chunks[k];
    }
  }

  /** A fitted retriever is consistent, whatever had been fitted before. */
  lemma {:induction false} AddChunksIsConsistent(p: Params, before: Fitted, chunks: seq<Chunk>)
    requires Consistent(before)
    ensures var ix := AddChunks(p, before.index, chunks);
            && before.index.postings.Keys <= ix.postings.Keys
            && forall token | token in ix.postings :: ix.postings[token] <= ix.tf.Keys * ix.lengths.Keys
  {
    hide Counts, Posted;
    if chunks != [] {
      var n := |chunks| - 1;
      AddChunksIsConsistent(p, before, chunks[..n]);
      var ix := AddChunks(p, before.index, chunks[..n]);
      var tokens := TokensOf(p, chunks[n]);
      forall token
        ensures var posted := Posted(ix.postings, tokens, chunks[n].chunkId);
                && Get(posted, token, {}) <= Get(ix.postings, token, {}) + {chunks[n].chunkId}
                && (token in ix.postings ==> token in posted)
      {
        PostedPosts(ix.postings, tokens, chunks[n].chunkId, token);
      }
    }
  }

  lemma FitIsConsistent(p: Params, before: Fitted, chunks: seq<Chunk>)
    requires Consistent(before)
    ensures Consistent(FitOn(p, before, chunks))
  {
    hide AddChunks;
    AddChunksIsConsistent(p, before, chunks);
  }

  // ----- Arithmetic -----

  /** The logarithm as far as the index relies on it. */
  ghost predicate IsLog(log: real -> real) {
    log(1.0) == 0.0 && forall x, y | 0.0 < x < y :: log(x) < log(y)
  }

  predicate InRange(p: Params) {
    p.k1 >= 0.0 && 0.0 <= p.b <= 1.0
  }

  /** The argument of the logarithm exceeds one exactly when no more chunks contain the token than there are. */
  lemma IdfIsPositive(p: Params, numDocs: nat, containing: nat)
    requires IsLog(p.log) && containing <= numDocs
    ensures Idf(p, numDocs, containing) > 0.0
  {
    var over := numDocs as real - containing as real + 0.5;
    var under := containing as real + 0.5;
    assert over / under > 0.0;
  }

  lemma {:induction false} DocFreqBound(p: Params, chunks: seq<Chunk>, token: string)
    ensures DocFreq(p, chunks, token) <= |chunks|
  {
    if chunks != [] {
      DocFreqBound(p, chunks[..|chunks| - 1], token);
    }
  }

  lemma {:induction false} TotalIncludes(p: Params, chunks: seq<Chunk>, k: nat)
    requires k < |chunks|
    ensures TotalTokens(p, chunks) >= |TokensOf(p, chunks[k])|
  {
    if k < |chunks| - 1 {
      TotalIncludes(p, chunks[..|chunks| - 1], k);
    }
  }

  lemma AverageIsPositive(p: Params, chunks: seq<Chunk>, k: nat)
    requires k < |chunks| && TokensOf(p, chunks[k]) != []
    ensures AverageLength(p, chunks) > 0.0
  {
    TotalIncludes(p, chunks, k);
  }

  lemma ProductIsNatural(x: real, y: real)
    requires x >= 0.0 && y >= 0.0
    ensures x * y >= 0.0
  {
  }

  /** No division by zero: the saturated denominator of a token that occurs is positive. */
  lemma SaturationIsPositive(p: Params, tf: nat, length: nat, avgdl: real)
    requires InRange(p) && tf > 0 && avgdl > 0.0
    ensures Saturation(p, tf, length, avgdl) > 0.0
  {
    var ratio := length as real / avgdl;
    assert ratio >= 0.0;
    var damping := 1.0 - p.b + p.b * ratio;
    ProductIsNatural(p.b, ratio);
    ProductIsNatural(p.k1, damping);
    assert Saturation(p, tf, length, avgdl) == tf as real + p.k1 * damping;
  }

  lemma ProductIsPositive(x: real, y: real)
    requires x > 0.0 && y > 0.0
    ensures x * y > 0.0 && x / y > 0.0
  {
  }

  // ----- Brute force -----

  /** What one query token adds, computed from the texts alone. */
  function Term(p: Params, chunks: seq<Chunk>, token: string, chunk: Chunk): real {
    var tf := multiset(TokensOf(p, chunk))[token];
    var avgdl := AverageLength(p, chunks);
    if tf == 0 || avgdl == 0.0 || Saturation(p, tf, |TokensOf(p, chunk)|, avgdl) == 0.0 then 0.0
    else Idf(p, |chunks|, DocFreq(p, chunks, token)) *
           (tf as real * (p.k1 + 1.0) / Saturation(p, tf, |TokensOf(p, chunk)|, avgdl))
  }

  function Direct(p: Params, chunks: seq<Chunk>, tokens: seq<string>, chunk: Chunk): real {
    if tokens == [] then 0.0
    else Direct(p, chunks, tokens[..|tokens| - 1], chunk) + Term(p, chunks, tokens[|tokens| - 1], chunk)
  }

  predicate Shares(p: Params, tokens: seq<string>, chunk: Chunk) {
    exists i | 0 <= i < |tokens| :: tokens[i] in TokensOf(p, chunk)
  }

  function FreshFit(p: Params, chunks: seq<Chunk>): (f: Fitted)
    ensures Consistent(f)
  {
    FitIsConsistent(p, EMPTY, chunks);
    FitOn(p, EMPTY, chunks)
  }

  /** A chunk is hit by a token exactly when its text contains it; then both divisions are defined. */
  lemma HitIsOccurrence(p: Params, chunks: seq<Chunk>, token: string, k: nat)
    requires DistinctChunks(chunks) && InRange(p) && k < |chunks|
    ensures var f := FreshFit(p, chunks); var id := chunks[k].chunkId;
            && (IsHit(f, token, id) <==> token in TokensOf(p, chunks[k]))
            && (IsHit(f, token, id) ==> Defined(p, f, token, id))
            && Gain(p, f, token, id) == Term(p, chunks, token, chunks[k])
  {
    hide AddChunks, Counts, Posted, AverageLength, DocFreq, Idf, Saturation;
    var f := FreshFit(p, chunks);
    var id := chunks[k].chunkId;
    var tokens := TokensOf(p, chunks[k]);
    PostsAll(p, chunks, token);
    RecordsAll(p, chunks, k);
    PostingsCount(p, chunks, token);
    CountsCount(tokens, token);
    assert IsHit(f, token, id) <==> token in tokens;
    if token in tokens {
      AverageIsPositive(p, chunks, k);
      SaturationIsPositive(p, multiset(tokens)[token], |tokens|, AverageLength(p, chunks));
      assert f.idf[token] == Idf(p, |chunks|, DocFreq(p, chunks, token));
    }
  }

  lemma HitsAreChunks(p: Params, chunks: seq<Chunk>, token: string, id: string)
    requires IsHit(FreshFit(p, chunks), token, id)
    ensures exists k | 0 <= k < |chunks| :: chunks[k].chunkId == id
  {
    hide AddChunks;
    PostsAll(p, chunks, token);
  }

  lemma {:induction false} AccumulatedIsDirect(p: Params, chunks: seq<Chunk>, tokens: seq<string>, k: nat)
    requires DistinctChunks(chunks) && InRange(p) && k < |chunks|
    ensures Accumulated(p, FreshFit(p, chunks), tokens, chunks[k].chunkId) == Direct(p, chunks, tokens, chunks[k])
  {
    hide FreshFit, Gain, Term, Consistent;
    if tokens != [] {
      var n := |tokens| - 1;
      AccumulatedIsDirect(p, chunks, tokens[..n], k);
      HitIsOccurrence(p, chunks, tokens[n], k);
    }
  }

  lemma TermIsPositive(p: Params, chunks: seq<Chunk>, token: string, k: nat)
    requires InRange(p) && IsLog(p.log) && k < |chunks|
    ensures if token in TokensOf(p, chunks[k]) then Term(p, chunks, token, chunks[k]) > 0.0
            else Term(p, chunks, token, chunks[k]) == 0.0
  {
    hide AverageLength, DocFreq, Idf, Saturation;
    var tokens := TokensOf(p, chunks[k]);
    if token in tokens {
      var tf := multiset(tokens)[token];
      var below := Saturation(p, tf, |tokens|, AverageLength(p, chunks)) by {
        AverageIsPositive(p, chunks, k);
      }
      AverageIsPositive(p, chunks, k);
      SaturationIsPositive(p, tf, |tokens|, AverageLength(p, chunks));
      DocFreqBound(p, chunks, token);
      IdfIsPositive(p, |chunks|, DocFreq(p, chunks, token));
      var above := tf as real * (p.k1 + 1.0);
      ProductIsPositive(tf as real, p.k1 + 1.0);
      ProductIsPositive(above, below);
      ProductIsPositive(Idf(p, |chunks|, DocFreq(p, chunks, token)), above / below);
    }
  }

  lemma {:induction false} DirectIsPositive(p: Params, chunks: seq<Chunk>, tokens: seq<string>, k: nat)
    requires InRange(p) && IsLog(p.log) && k < |chunks|
    ensures Direct(p, chunks, tokens, chunks[k]) >= 0.0
    ensures Direct(p, chunks, tokens, chunks[k]) > 0.0 <==> Shares(p, tokens, chunks[k])
  {
    hide Term;
    if tokens != [] {
      var n := |tokens| - 1;
      DirectIsPositive(p, chunks, tokens[..n], k);
      TermIsPositive(p, chunks, tokens[n], k);
      assert forall i | 0 <= i < n :: tokens[..n][i] == tokens[i];
    }
  }

  lemma MatchesIffShares(p: Params, chunks: seq<Chunk>, tokens: seq<string>, k: nat)
    requires DistinctChunks(chunks) && InRange(p) && k < |chunks|
    ensures Matches(FreshFit(p, chunks), tokens, chunks[k].chunkId) <==> Shares(p, tokens, chunks[k])
  {
    hide FreshFit, IsHit, Gain, Term, Consistent;
    forall i | 0 <= i < |tokens|
      ensures IsHit(FreshFit(p, chunks), tokens[i], chunks[k].chunkId) <==> tokens[i] in TokensOf(p, chunks[k])
    {
      HitIsOccurrence(p, chunks, tokens[i], k);
    }
  }

  lemma NeverUndefined(p: Params, chunks: seq<Chunk>, tokens: seq<string>)
    requires DistinctChunks(chunks) && InRange(p)
    ensures AllDefined(p, FreshFit(p, chunks), tokens)
  {
    hide FreshFit, Consistent, IsHit, Defined, Gain;
    var f := FreshFit(p, chunks);
    forall i, id | 0 <= i < |tokens| && IsHit(f, tokens[i], id)
      ensures Defined(p, f, tokens[i], id)
    {
      HitsAreChunks(p, chunks, tokens[i], id);
      var k :| 0 <= k < |chunks| && chunks[k].chunkId == id;
      HitIsOccurrence(p, chunks, tokens[i], k);
    }
  }

  /** After fitting a fresh retriever with distinctly named chunks, and with the constants in range, no query can
      divide by zero; the score dictionary holds exactly the chunks that share a token with the query; and each
      score is the brute-force sum over the query's tokens, which is positive. */
  lemma IndexIsBruteForce(p: Params, chunks: seq<Chunk>, tokens: seq<string>, scores: map<string, real>)
    requires DistinctChunks(chunks) && InRange(p) && IsLog(p.log)
    requires Scored(p, FreshFit(p, chunks), tokens, scores)
    ensures AllDefined(p, FreshFit(p, chunks), tokens)
    ensures forall id | id in scores :: exists k | 0 <= k < |chunks| :: chunks[k].chunkId == id
    ensures forall k | 0 <= k < |chunks| :: chunks[k].chunkId in scores <==> Shares(p, tokens, chunks[k])
    ensures forall k | 0 <= k < |chunks| && chunks[k].chunkId in scores ::
              scores[chunks[k].chunkId] == Direct(p, chunks, tokens, chunks[k]) > 0.0
  {
    hide FreshFit, Consistent, IsHit, Gain, Shares, Accumulated, Direct;
    NeverUndefined(p, chunks, tokens);
    forall id | id in scores
      ensures exists k | 0 <= k < |chunks| :: chunks[k].chunkId == id
    {
      var i :| 0 <= i < |tokens| && IsHit(FreshFit(p, chunks), tokens[i], id);
      HitsAreChunks(p, chunks, tokens[i], id);
    }
    forall k | 0 <= k < |chunks|
      ensures chunks[k].chunkId in scores <==> Shares(p, tokens, chunks[k])
      ensures chunks[k].chunkId in scores ==> scores[chunks[k].chunkId] == Direct(p, chunks, tokens, chunks[k]) > 0.0
    {
      MatchesIffShares(p, chunks, tokens, k);
      AccumulatedIsDirect(p, chunks, tokens, k);
      DirectIsPositive(p, chunks, tokens, k);
    }
  }

  // ----- Whole searches -----

  predicate Names(chunks: seq<Chunk>, id: string) {
    exists k | 0 <= k < |chunks| :: chunks[k].chunkId == id
  }

  lemma {:induction false} Locate(chunks: seq<Chunk>, items: seq<(string, real)>) returns (picks: seq<nat>)
    requires forall i | 0 <= i < |items| :: Names(chunks, items[i].0)
    ensures |picks| == |items|
    ensures forall i | 0 <= i < |items| :: picks[i] < |chunks| && chunks[picks[i]].chunkId == items[i].0
  {
    if items == [] {
      picks := [];
    } else {
      var n := |items| - 1;
      assert forall i | 0 <= i < n :: items[..n][i] == items[i];
      var front := Locate(chunks, items[..n]);
      var k :| 0 <= k < |chunks| && chunks[k].chunkId == items[n].0;
      picks := front + [k];
    }
  }

  /** The chunks that share a token with the query, each once, by descending brute-force score. */
  predicate RanksSharing(p: Params, chunks: seq<Chunk>, tokens: seq<string>, picks: seq<nat>) {
    && (forall i | 0 <= i < |picks| :: picks[i] < |chunks|)
    && Distinct(picks)
    && (forall k | 0 <= k < |chunks| :: k in picks <==> Shares(p, tokens, chunks[k]))
    && (forall i, j | 0 <= i < j < |picks| ::
          Direct(p, chunks, tokens, chunks[picks[i]]) >= Direct(p, chunks, tokens, chunks[picks[j]]))
  }

  /** The listed entries are the picked chunks with their brute-force scores. */
  predicate Pairs(p: Params, chunks: seq<Chunk>, tokens: seq<string>, items: seq<(string, real)>, picks: seq<nat>) {
    && |picks| == |items|
    && forall i | 0 <= i < |items| ::
         && picks[i] < |chunks|
         && items[i] == (chunks[picks[i]].chunkId, Direct(p, chunks, tokens, chunks[picks[i]]))
  }

  lemma ListingPairs(p: Params, chunks: seq<Chunk>, tokens: seq<string>, items: seq<(string, real)>,
                     scores: map<string, real>) returns (picks: seq<nat>)
    requires DistinctChunks(chunks) && InRange(p) && IsLog(p.log)
    requires Scored(p, FreshFit(p, chunks), tokens, scores) && IsListing(items, scores)
    ensures Pairs(p, chunks, tokens, items, picks)
    ensures forall k | 0 <= k < |chunks| :: Shares(p, tokens, chunks[k]) <==> chunks[k].chunkId in scores
  {
    hide FreshFit, Consistent, Scored, Direct, Shares, DistinctIds, DistinctChunks;
    IndexIsBruteForce(p, chunks, tokens, scores);
    forall i | 0 <= i < |items|
      ensures Names(chunks, items[i].0)
    {
      assert items[i].0 in scores;
    }
    picks := Locate(chunks, items);
  }

  lemma PairsRank(p: Params, chunks: seq<Chunk>, tokens: seq<string>, items: seq<(string, real)>,
                  scores: map<string, real>, picks: seq<nat>)
    requires DistinctChunks(chunks) && Pairs(p, chunks, tokens, items, picks)
    requires IsListing(items, scores) && Descending(items, Second)
    requires forall k | 0 <= k < |chunks| :: Shares(p, tokens, chunks[k]) <==> chunks[k].chunkId in scores
    ensures RanksSharing(p, chunks, tokens, picks)
  {
    hide Direct, Shares;
    assert forall i | 0 <= i < |picks| :: Second(items[i]) == Direct(p, chunks, tokens, chunks[picks[i]]);
    forall k | 0 <= k < |chunks|
      ensures k in picks <==> Shares(p, tokens, chunks[k])
    {
      if Shares(p, tokens, chunks[k]) {
        var i :| 0 <= i < |items| && items[i].0 == chunks[k].chunkId;
        assert picks[i] == k;
      }
      if k in picks {
        var i :| 0 <= i < |picks| && picks[i] == k;
        assert items[i].0 in scores;
      }
    }
    forall i, j | 0 <= i < j < |picks|
      ensures picks[i] != picks[j]
    {
      assert items[i].0 != items[j].0;
    }
  }

  lemma RankingRanks(p: Params, chunks: seq<Chunk>, tokens: seq<string>, items: seq<(string, real)>)
      returns (picks: seq<nat>)
    requires DistinctChunks(chunks) && InRange(p) && IsLog(p.log)
    requires IsRanking(p, FreshFit(p, chunks), tokens, items)
    ensures RanksSharing(p, chunks, tokens, picks) && Pairs(p, chunks, tokens, items, picks)
  {
    hide FreshFit, Consistent, Scored, IsListing, Descending, Pairs, DistinctChunks, RanksSharing;
    var scores :| Scored(p, FreshFit(p, chunks), tokens, scores) && IsListing(items, scores);
    picks := ListingPairs(p, chunks, tokens, items, scores);
    PairsRank(p, chunks, tokens, items, scores, picks);
  }

  lemma NothingRanked(p: Params, chunks: seq<Chunk>, tokens: seq<string>)
    requires tokens == [] || chunks == []
    ensures RanksSharing(p, chunks, tokens, [])
  {
  }

  lemma NoChunks(chunks: seq<Chunk>)
    ensures ById(chunks) == map[] <==> chunks == []
  {
    if chunks != [] {
      assert chunks[|chunks| - 1].chunkId in ById(chunks);
    }
  }

  /** A search of a fresh fit with distinct chunk names and constants in range always answers, and its hits are the
      first k of the chunks that share a token with the query, ranked by brute force. */
  lemma SearchIsBruteForce(p: Params, chunks: seq<Chunk>, tokens: seq<string>, topK: int,
                           r: Result<seq<Hit>, SearchError>) returns (picks: seq<nat>)
    requires DistinctChunks(chunks) && InRange(p) && IsLog(p.log)
    requires IsAnswer(p, FreshFit(p, chunks), tokens, topK, r)
    ensures RanksSharing(p, chunks, tokens, picks)
    ensures r.Success? && |r.value| == Kept(|picks|, topK)
    ensures forall i | 0 <= i < |r.value| ::
              var hit := r.value[i]; var chunk := chunks[picks[i]];
              && hit.chunkId == chunk.chunkId && hit.documentId == chunk.documentId && hit.text == chunk.text
              && hit.score == RoundTo(Direct(p, chunks, tokens, chunk), 10000) && hit.rank == i + 1
  {
    hide AddChunks, Consistent, AllDefined, IsRanking, Direct, RoundTo, RanksSharing;
    var f := FreshFit(p, chunks);
    ByIdIs(chunks);
    NoChunks(chunks);
    if tokens == [] || f.chunks == map[] {
      picks := [];
      NothingRanked(p, chunks, tokens);
    } else {
      NeverUndefined(p, chunks, tokens);
      var items: seq<(string, real)> :| IsRanking(p, f, tokens, items) && Rendered(f, Prefix(items, topK), r);
      picks := RankingRanks(p, chunks, tokens, items);
      assert AllKnown(f, items);
    }
  }
}
