/** A retriever that is fitted again: old postings stay, old chunks go. What each search then answers. */
module Bm25Refit {
  import opened Wrappers
  import opened Sequences
  import opened Sorting
  import opened Retrieval
  import opened Bm25
  import opened Bm25Theorems

  // ----- Searches over any consistent state -----

  /** The chunks that the score dictionary will hold. */
  function HitIds(f: Fitted, tokens: seq<string>): set<string> {
    set id | id in f.index.tf.Keys && Matches(f, tokens, id)
  }

  /** Some token of the query is posted for a chunk that is no longer there. */
  predicate HitsGone(f: Fitted, tokens: seq<string>) {
    exists id :: id in HitIds(f, tokens) && id !in f.chunks
  }

  lemma MatchesAreHitIds(f: Fitted, tokens: seq<string>)
    requires Consistent(f)
    ensures forall id :: id in HitIds(f, tokens) <==> Matches(f, tokens, id)
  {
  }

  function Ids(items: seq<(string, real)>): seq<string> {
    seq(|items|, i requires 0 <= i < |items| => items[i].0)
  }

  lemma RankingIds(p: Params, f: Fitted, tokens: seq<string>, items: seq<(string, real)>)
    requires Consistent(f) && IsRanking(p, f, tokens, items)
    ensures Elements(Ids(items)) == HitIds(f, tokens) && |items| == |HitIds(f, tokens)|
  {
    hide Consistent, Matches, Accumulated, HitIds, Descending;
    MatchesAreHitIds(f, tokens);
    var scores :| Scored(p, f, tokens, scores) && IsListing(items, scores);
    var ids := Ids(items);
    assert Distinct(ids);
    ElementsSize(ids);
    forall id
      ensures id in ids <==> id in HitIds(f, tokens)
    {
      if id in HitIds(f, tokens) {
        var i :| 0 <= i < |items| && items[i].0 == id;
        assert ids[i] == id;
      }
    }
  }

  /** When no division is by zero: no search fails unless a hit is gone, and if one is, every search that cuts off
      nothing fails, namely with that of a chunk that is gone. */
  lemma SearchFailsIff(p: Params, f: Fitted, tokens: seq<string>, topK: int, r: Result<seq<Hit>, SearchError>)
    requires Consistent(f) && tokens != [] && f.chunks != map[] && AllDefined(p, f, tokens)
    requires IsAnswer(p, f, tokens, topK, r)
    ensures !HitsGone(f, tokens) ==> r.Success?
    ensures topK >= |HitIds(f, tokens)| ==> (r.Failure? <==> HitsGone(f, tokens))
    ensures r.Failure? ==> exists id :: id in HitIds(f, tokens) && id !in f.chunks && r == Failure(MissingChunk(id))
  {
    hide Consistent, AllDefined, IsRanking, HitIds, HitOf;
    var items: seq<(string, real)> :| IsRanking(p, f, tokens, items) && Rendered(f, Prefix(items, topK), r);
    RankingIds(p, f, tokens, items);
    var ids, top := Ids(items), Prefix(items, topK);
    forall i | 0 <= i < |items|
      ensures items[i].0 in HitIds(f, tokens)
    {
      assert ids[i] in Elements(ids);
    }
    if topK >= |items| && HitsGone(f, tokens) {
      var id :| id in HitIds(f, tokens) && id !in f.chunks;
      assert id in Elements(ids);
      var i :| 0 <= i < |ids| && ids[i] == id;
      assert top[i].0 == id;
    }
  }

  // ----- A history of fits -----

  function Flatten(fits: seq<seq<Chunk>>): seq<Chunk> {
    if fits == [] then [] else Flatten(fits[..|fits| - 1]) + fits[|fits| - 1]
  }

  /** The retriever after being fitted to each list in turn. */
  function FitEach(p: Params, fits: seq<seq<Chunk>>): (f: Fitted)
    ensures Consistent(f)
  {
    if fits == [] then EMPTY
    else
      var before := FitEach(p, fits[..|fits| - 1]);
      FitIsConsistent(p, before, fits[|fits| - 1]);
      FitOn(p, before, fits[|fits| - 1])
  }

  lemma {:induction false} AddChunksConcat(p: Params, ix: Index, a: seq<Chunk>, b: seq<Chunk>)
    ensures AddChunks(p, ix, a + b) == AddChunks(p, AddChunks(p, ix, a), b)
  {
    hide AddChunk;
    if b == [] {
      assert a + b == a;
    } else {
      assert (a + b)[..|a + b| - 1] == a + b[..|b| - 1];
      AddChunksConcat(p, ix, a, b[..|b| - 1]);
    }
  }

  /** The index after many fits is the index of one fit to everything. */
  lemma {:induction false} HistoryIndex(p: Params, fits: seq<seq<Chunk>>)
    ensures FitEach(p, fits).index == Fresh(p, Flatten(fits))
  {
    hide AddChunks, Consistent;
    if fits == [] {
      assert Fresh(p, []) == EMPTY.index by {
        StartOfChunks(p, EMPTY.index);
      }
    } else {
      HistoryIndex(p, fits[..|fits| - 1]);
      AddChunksConcat(p, EMPTY.index, Flatten(fits[..|fits| - 1]), fits[|fits| - 1]);
    }
  }

  /** The retriever that was fitted to a history of lists and is now fitted to `chunks`. */
  function Refitted(p: Params, fits: seq<seq<Chunk>>, chunks: seq<Chunk>): (f: Fitted)
    ensures Consistent(f)
  {
    FitIsConsistent(p, FitEach(p, fits), chunks);
    FitOn(p, FitEach(p, fits), chunks)
  }

  lemma RefittedIs(p: Params, fits: seq<seq<Chunk>>, chunks: seq<Chunk>)
    ensures var f := Refitted(p, fits, chunks);
            && f.index == Fresh(p, Flatten(fits) + chunks)
            && f.chunks == ById(chunks) && f.avgdl == AverageLength(p, chunks)
  {
    hide AddChunks, Consistent, FitEach, Idfs;
    HistoryIndex(p, fits);
    AddChunksConcat(p, EMPTY.index, Flatten(fits), chunks);
  }

  /** A token hits an id exactly when some chunk ever fitted under that id contains the token. */
  lemma HitIffEver(p: Params, fits: seq<seq<Chunk>>, chunks: seq<Chunk>, token: string, id: string)
    ensures IsHit(Refitted(p, fits, chunks), token, id) <==>
            var all := Flatten(fits) + chunks;
            exists k | 0 <= k < |all| :: all[k].chunkId == id && token in TokensOf(p, all[k])
  {
    hide AddChunks, FitEach, FitOn, Flatten, Fresh;
    RefittedIs(p, fits, chunks);
    PostsAll(p, Flatten(fits) + chunks, token);
  }

  // ----- Which chunks a search hits -----

  /** The ids of the chunks ever fitted that share a token with the query. */
  function SharingIds(p: Params, tokens: seq<string>, chunks: seq<Chunk>): set<string> {
    set k | 0 <= k < |chunks| && Shares(p, tokens, chunks[k]) :: chunks[k].chunkId
  }

  lemma MatchIsShared(p: Params, fits: seq<seq<Chunk>>, chunks: seq<Chunk>, tokens: seq<string>, id: string)
    requires Matches(Refitted(p, fits, chunks), tokens, id)
    ensures id in SharingIds(p, tokens, Flatten(fits) + chunks)
  {
    hide Refitted, IsHit, Flatten;
    var all := Flatten(fits) + chunks;
    var i :| 0 <= i < |tokens| && IsHit(Refitted(p, fits, chunks), tokens[i], id);
    HitIffEver(p, fits, chunks, tokens[i], id);
    var k :| 0 <= k < |all| && all[k].chunkId == id && tokens[i] in TokensOf(p, all[k]);
    assert Shares(p, tokens, all[k]);
  }

  lemma SharedIsMatch(p: Params, fits: seq<seq<Chunk>>, chunks: seq<Chunk>, tokens: seq<string>, id: string)
    requires id in SharingIds(p, tokens, Flatten(fits) + chunks)
    ensures Matches(Refitted(p, fits, chunks), tokens, id)
  {
    hide Refitted, IsHit, Flatten;
    var all := Flatten(fits) + chunks;
    var k :| 0 <= k < |all| && Shares(p, tokens, all[k]) && all[k].chunkId == id;
    var i :| 0 <= i < |tokens| && tokens[i] in TokensOf(p, all[k]);
    HitIffEver(p, fits, chunks, tokens[i], id);
    assert IsHit(Refitted(p, fits, chunks), tokens[i], id);
  }

  lemma HitIdsAreSharing(p: Params, fits: seq<seq<Chunk>>, chunks: seq<Chunk>, tokens: seq<string>)
    ensures HitIds(Refitted(p, fits, chunks), tokens) == SharingIds(p, tokens, Flatten(fits) + chunks)
  {
    hide Refitted, Matches, Consistent, HitIds, SharingIds, Flatten;
    var f := Refitted(p, fits, chunks);
    MatchesAreHitIds(f, tokens);
    forall id
      ensures Matches(f, tokens, id) <==> id in SharingIds(p, tokens, Flatten(fits) + chunks)
    {
      if Matches(f, tokens, id) {
        MatchIsShared(p, fits, chunks, tokens, id);
      }
      if id in SharingIds(p, tokens, Flatten(fits) + chunks) {
        SharedIsMatch(p, fits, chunks, tokens, id);
      }
    }
  }

  /** Some earlier chunk whose id is not among the new ones shares a token with the query. */
  predicate SharesWithGone(p: Params, tokens: seq<string>, earlier: seq<Chunk>, chunks: seq<Chunk>) {
    exists k | 0 <= k < |earlier| :: Shares(p, tokens, earlier[k]) && !Names(chunks, earlier[k].chunkId)
  }

  lemma GoneIffShared(p: Params, fits: seq<seq<Chunk>>, chunks: seq<Chunk>, tokens: seq<string>)
    ensures HitsGone(Refitted(p, fits, chunks), tokens) <==> SharesWithGone(p, tokens, Flatten(fits), chunks)
  {
    hide Refitted, HitIds, Shares, Flatten, Consistent;
    var f, earlier := Refitted(p, fits, chunks), Flatten(fits);
    var all := earlier + chunks;
    RefittedIs(p, fits, chunks);
    HitIdsAreSharing(p, fits, chunks, tokens);
    ByIdIs(chunks);
    forall id
      ensures id in f.chunks <==> Names(chunks, id)
    {
    }
    forall j | |earlier| <= j < |all|
      ensures Names(chunks, all[j].chunkId)
    {
      assert chunks[j - |earlier|].chunkId == all[j].chunkId;
    }
    if HitsGone(f, tokens) {
      var id :| id in HitIds(f, tokens) && id !in f.chunks;
      var k :| 0 <= k < |all| && Shares(p, tokens, all[k]) && all[k].chunkId == id;
      assert k < |earlier| && earlier[k] == all[k];
    }
    if SharesWithGone(p, tokens, earlier, chunks) {
      var k :| 0 <= k < |earlier| && Shares(p, tokens, earlier[k]) && !Names(chunks, earlier[k].chunkId);
      assert all[k] == earlier[k];
      assert all[k].chunkId in SharingIds(p, tokens, all);
    }
  }

  // ----- Division by zero -----

  /** The last chunk that was fitted under an id. */
  function Latest(chunks: seq<Chunk>, id: string): Chunk
    requires Names(chunks, id)
  {
    var n := |chunks| - 1;
    if chunks[n].chunkId == id then chunks[n]
    else
      assert Names(chunks[..n], id) by {
        var k :| 0 <= k < |chunks| && chunks[k].chunkId == id;
        assert chunks[..n][k].chunkId == id;
      }
      Latest(chunks[..n], id)
  }

  lemma {:induction false} RecordsLatest(p: Params, chunks: seq<Chunk>, id: string)
    requires Names(chunks, id)
    ensures Latest(chunks, id).chunkId == id && RecordsChunk(p, Fresh(p, chunks), Latest(chunks, id))
  {
    hide Counts, Posted;
    var n := |chunks| - 1;
    if chunks[n].chunkId != id {
      RecordsLatest(p, chunks[..n], id);
    }
  }

  lemma {:induction false} TotalIsZeroIff(p: Params, chunks: seq<Chunk>)
    ensures TotalTokens(p, chunks) == 0 <==> forall k | 0 <= k < |chunks| :: TokensOf(p, chunks[k]) == []
  {
    if chunks != [] {
      var n := |chunks| - 1;
      TotalIsZeroIff(p, chunks[..n]);
      assert forall k | 0 <= k < n :: chunks[..n][k] == chunks[k];
    }
  }

  predicate AllBlank(p: Params, chunks: seq<Chunk>) {
    forall k | 0 <= k < |chunks| :: TokensOf(p, chunks[k]) == []
  }

  lemma QuotientIsZeroIff(x: real, y: real)
    requires x >= 0.0 && y > 0.0
    ensures x / y >= 0.0 && (x / y == 0.0 <==> x == 0.0)
  {
  }

  lemma AverageIsZeroIff(p: Params, chunks: seq<Chunk>)
    requires chunks != []
    ensures AverageLength(p, chunks) >= 0.0 && (AverageLength(p, chunks) == 0.0 <==> AllBlank(p, chunks))
  {
    hide TotalTokens;
    TotalIsZeroIff(p, chunks);
    QuotientIsZeroIff(TotalTokens(p, chunks) as real, |chunks| as real);
  }

  lemma ProductIsZeroIff(x: real, y: real)
    requires x >= 0.0 && y >= 0.0
    ensures x * y >= 0.0 && (x * y == 0.0 <==> x == 0.0 || y == 0.0)
  {
  }

  /** In range, the denominator vanishes only for a token that does not occur, and then only without any damping. */
  lemma SaturationIsZeroIff(p: Params, tf: nat, length: nat, avgdl: real)
    requires InRange(p) && avgdl > 0.0
    ensures Saturation(p, tf, length, avgdl) == 0.0 <==> tf == 0 && (p.k1 == 0.0 || (p.b == 1.0 && length == 0))
  {
    var ratio := length as real / avgdl;
    QuotientIsZeroIff(length as real, avgdl);
    ProductIsZeroIff(p.b, ratio);
    var damping := 1.0 - p.b + p.b * ratio;
    ProductIsZeroIff(p.k1, damping);
    assert Saturation(p, tf, length, avgdl) == tf as real + p.k1 * damping;
    if p.b == 1.0 {
      assert p.b * ratio == ratio;
    }
  }

  /** Scoring this token for the id of this chunk divides by zero: the new texts are all blank, or the id was used
      again for a text without the token, and nothing else keeps the denominator from zero. */
  predicate Undivided(p: Params, all: seq<Chunk>, chunks: seq<Chunk>, token: string, id: string)
    requires Names(all, id)
  {
    || AllBlank(p, chunks)
    || (&& token !in TokensOf(p, Latest(all, id))
        && (p.k1 == 0.0 || (p.b == 1.0 && TokensOf(p, Latest(all, id)) == [])))
  }

  lemma UndefinedIff(p: Params, fits: seq<seq<Chunk>>, chunks: seq<Chunk>, token: string, k: nat)
    requires InRange(p) && chunks != [] && k < |Flatten(fits) + chunks|
    requires token in TokensOf(p, (Flatten(fits) + chunks)[k])
    ensures var f := Refitted(p, fits, chunks); var all := Flatten(fits) + chunks; var id := all[k].chunkId;
            && Names(all, id) && IsHit(f, token, id)
            && (!Defined(p, f, token, id) <==> Undivided(p, all, chunks, token, id))
  {
    hide FitEach, FitOn, Flatten, AddChunks, AverageLength, Saturation, AllBlank, Counts, Latest;
    var f, all := Refitted(p, fits, chunks), Flatten(fits) + chunks;
    var id := all[k].chunkId;
    HitIffEver(p, fits, chunks, token, id);
    RefittedIs(p, fits, chunks);
    RecordsLatest(p, all, id);
    var tokens := TokensOf(p, Latest(all, id));
    CountsCount(tokens, token);
    AverageIsZeroIff(p, chunks);
    if f.avgdl != 0.0 {
      SaturationIsZeroIff(p, multiset(tokens)[token], |tokens|, f.avgdl);
    }
  }

  /** Some token of the query and some chunk ever fitted that contains it divide by zero. */
  predicate DividesByZero(p: Params, all: seq<Chunk>, chunks: seq<Chunk>, tokens: seq<string>) {
    exists i, k | 0 <= i < |tokens| && 0 <= k < |all| ::
      && tokens[i] in TokensOf(p, all[k]) && Names(all, all[k].chunkId)
      && Undivided(p, all, chunks, tokens[i], all[k].chunkId)
  }

  lemma AllDefinedIff(p: Params, fits: seq<seq<Chunk>>, chunks: seq<Chunk>, tokens: seq<string>)
    requires InRange(p) && chunks != []
    ensures AllDefined(p, Refitted(p, fits, chunks), tokens) <==>
            !DividesByZero(p, Flatten(fits) + chunks, chunks, tokens)
  {
    hide Refitted, Flatten, Undivided, Consistent, Defined, IsHit;
    var f, all := Refitted(p, fits, chunks), Flatten(fits) + chunks;
    if DividesByZero(p, all, chunks, tokens) {
      var i, k :| 0 <= i < |tokens| && 0 <= k < |all| && tokens[i] in TokensOf(p, all[k])
        && Names(all, all[k].chunkId) && Undivided(p, all, chunks, tokens[i], all[k].chunkId);
      UndefinedIff(p, fits, chunks, tokens[i], k);
    }
    if !AllDefined(p, f, tokens) {
      var i, id :| 0 <= i < |tokens| && IsHit(f, tokens[i], id) && !Defined(p, f, tokens[i], id);
      HitIffEver(p, fits, chunks, tokens[i], id);
      var k :| 0 <= k < |all| && all[k].chunkId == id && tokens[i] in TokensOf(p, all[k]);
      UndefinedIff(p, fits, chunks, tokens[i], k);
    }
  }

  // ----- Every search after every history of fits -----

  /** What a search answers after any number of fits, in terms of the texts alone: nothing for an empty query or list;
      a division by zero exactly in the case above; and otherwise, if it cuts off nothing, an error exactly when an
      earlier chunk whose id is gone shares a token with the query. */
  lemma RefitOutcome(p: Params, fits: seq<seq<Chunk>>, chunks: seq<Chunk>, tokens: seq<string>, topK: int,
                     r: Result<seq<Hit>, SearchError>)
    requires InRange(p) && IsAnswer(p, Refitted(p, fits, chunks), tokens, topK, r)
    ensures var all := Flatten(fits) + chunks;
            if tokens == [] || chunks == [] then r == Success([])
            else
              && (r == Failure(ZeroDivision) <==> DividesByZero(p, all, chunks, tokens))
              && (!DividesByZero(p, all, chunks, tokens) ==>
                    && (!SharesWithGone(p, tokens, Flatten(fits), chunks) ==> r.Success?)
                    && (topK >= |SharingIds(p, tokens, all)| ==>
                          (r.Failure? <==> SharesWithGone(p, tokens, Flatten(fits), chunks))))
  {
    hide Refitted, Flatten, Consistent, AllDefined, DividesByZero, SharesWithGone, HitsGone, HitIds, SharingIds,
         IsRanking, Rendered;
    RefittedIs(p, fits, chunks);
    NoChunks(chunks);
    if tokens != [] && chunks != [] {
      var f := Refitted(p, fits, chunks);
      AllDefinedIff(p, fits, chunks, tokens);
      GoneIffShared(p, fits, chunks, tokens);
      HitIdsAreSharing(p, fits, chunks, tokens);
      if AllDefined(p, f, tokens) {
        SearchFailsIff(p, f, tokens, topK, r);
      }
    }
  }
}
