/** Where the evidence of the retrieval pipeline comes from: each quoted text is that of the first hit of its chunk. */
module EvidenceSources {
  import opened Wrappers
  import opened Sequences
  import opened Sorting
  import opened Rounding
  import opened Retrieval
  import opened Fusion
  import opened FusionTheorems
  import opened Pipeline
  import Bm25
  import Bm25Theorems
  import opened TextLayout
  import Text

  // ----- The first hit of a chunk -----

  /** The first hit with this chunk id has these contents. */
  predicate FirstHit(hits: seq<Hit>, i: nat, id: string) {
    i < |hits| && hits[i].chunkId == id && forall j | 0 <= j < i :: hits[j].chunkId != id
  }

  predicate Shows(hits: seq<Hit>, i: nat, id: string, documentId: string, text: string) {
    FirstHit(hits, i, id) && hits[i].documentId == documentId && hits[i].text == text
  }

  /** The contents are those of the first keyword hit of the chunk, or of its first vector hit when no keyword hit has
      it. */
  ghost predicate TakenFrom(a: seq<Hit>, b: seq<Hit>, id: string, documentId: string, text: string) {
    || (exists i :: Shows(a, i, id, documentId, text))
    || (!Lists(a, id) && exists i :: Shows(b, i, id, documentId, text))
  }

  lemma {:induction false} LookupIs(before: map<string, Meta>, hits: seq<Hit>, id: string)
    ensures id in Lookup(before, hits) <==> id in before || Lists(hits, id)
    ensures id in before ==> Lookup(before, hits)[id] == before[id]
    ensures id !in before && Lists(hits, id) ==>
              var meta := Lookup(before, hits)[id]; exists i :: Shows(hits, i, id, meta.documentId, meta.text)
  {
    if hits != [] {
      var n := |hits| - 1;
      var front := hits[..n];
      LookupIs(before, front, id);
      if Lists(front, id) {
        var m :| 0 <= m < n && front[m].chunkId == id;
        assert hits[m].chunkId == id;
        if id !in before {
          var meta := Lookup(before, front)[id];
          var i :| Shows(front, i, id, meta.documentId, meta.text);
          assert Shows(hits, i, id, meta.documentId, meta.text);
        }
      } else if hits[n].chunkId == id {
        forall j | 0 <= j < n
          ensures hits[j].chunkId != id
        {
          assert front[j] == hits[j];
        }
        assert Shows(hits, n, id, hits[n].documentId, hits[n].text);
      } else {
        assert forall j | 0 <= j < n :: front[j] == hits[j];
        assert !Lists(hits, id);
      }
    }
  }

  lemma MetasAreTaken(a: seq<Hit>, b: seq<Hit>, id: string)
    requires Lists(a, id) || Lists(b, id)
    ensures id in Metas(a, b) && TakenFrom(a, b, id, Metas(a, b)[id].documentId, Metas(a, b)[id].text)
  {
    hide Lookup, Lists, Shows;
    LookupIs(map[], a, id);
    LookupIs(Lookup(map[], a), b, id);
  }

  /** Every fused entry keeps the document id and the text of the first hit of its chunk, keyword hits before vector
      hits. */
  lemma FusedAreTaken(k: int, a: seq<Hit>, b: seq<Hit>, i: nat)
    requires Divides(k, |a|) && Divides(k, |b|) && i < |FusedList(k, a, b)|
    ensures var f := FusedList(k, a, b)[i]; TakenFrom(a, b, f.chunkId, f.documentId, f.text)
  {
    hide Ranking, Metas, TakenFrom, Lists, Order;
    RankingIs(k, a, b);
    OrderIs(a, b);
    MetasAreTaken(a, b, Ranking(k, a, b)[i].0);
  }

  // ----- Ties -----

  lemma {:induction false} SeenInSteps(before: seq<string>, a: seq<Hit>, b: seq<Hit>)
    ensures Seen(Seen(before, a), b) == Seen(before, a + b)
  {
    if b == [] {
      assert a + b == a;
    } else {
      var n := |b| - 1;
      SeenInSteps(before, a, b[..n]);
      assert (a + b)[..|a + b| - 1] == a + b[..n];
    }
  }

  /** The ids stand in the order of their first hits. */
  lemma {:induction false} SeenPlaces(hits: seq<Hit>) returns (at: seq<nat>)
    ensures |at| == |Seen([], hits)|
    ensures forall i | 0 <= i < |at| :: FirstHit(hits, at[i], Seen([], hits)[i])
    ensures forall i, j | 0 <= i < j < |at| :: at[i] < at[j]
  {
    if hits == [] {
      at := [];
    } else {
      var n := |hits| - 1;
      var before := SeenPlaces(hits[..n]);
      SeenIs([], hits[..n]);
      at := before + if hits[n].chunkId in Seen([], hits[..n]) then [] else [n];
      forall i | 0 <= i < |before|
        ensures FirstHit(hits, before[i], Seen([], hits[..n])[i])
      {
        assert FirstHit(hits[..n], before[i], Seen([], hits[..n])[i]);
      }
      if !Lists(hits[..n], hits[n].chunkId) {
        assert forall j | 0 <= j < n :: hits[..n][j] == hits[j];
        assert FirstHit(hits, n, hits[n].chunkId);
      }
    }
  }

  /** Chunks with equal exact scores come in the order in which they are first hit, keyword hits before vector hits. */
  lemma TiesKeepListing(k: int, a: seq<Hit>, b: seq<Hit>, i: nat, j: nat) returns (m: nat, n: nat)
    requires Divides(k, |a|) && Divides(k, |b|) && i < j < |FusedList(k, a, b)|
    requires Score(k, a, b, FusedList(k, a, b)[i].chunkId) == Score(k, a, b, FusedList(k, a, b)[j].chunkId)
    ensures m < n && FirstHit(a + b, m, FusedList(k, a, b)[i].chunkId)
            && FirstHit(a + b, n, FusedList(k, a, b)[j].chunkId)
  {
    hide Score, SortDesc, Metas, Seen, Lists, FirstHit;
    var ranking := Ranking(k, a, b);
    RankingIs(k, a, b);
    var x, y := TiesKeepOrder(Entries(k, a, b), Second, i, j);
    SeenInSteps([], a, b);
    var at := SeenPlaces(a + b);
    m, n := at[x], at[y];
  }

  // ----- The candidates -----

  lemma RerankedKeeps(fused: seq<Fused>, i: nat) returns (j: nat)
    requires i < |Reranked(fused)|
    ensures j < |fused| && Reranked(fused)[i] == Boosted(fused[j])
  {
    hide SortDesc, Boosted;
    var boosted := Map(fused, Boosted);
    SortSorts(boosted, RrfScore);
    assert Reranked(fused)[i] in multiset(Reranked(fused));
    assert Reranked(fused)[i] in multiset(boosted);
    j :| 0 <= j < |boosted| && boosted[j] == Reranked(fused)[i];
    assert boosted[j] == Boosted(fused[j]);
  }

  /** So does every candidate; and its score is the rounded fused score, with a bonus for two kinds of chunks. */
  lemma CandidatesAreTaken(a: seq<Hit>, b: seq<Hit>, topK: int, i: nat)
    requires i < |Candidates(a, b, topK)|
    ensures var f := Candidates(a, b, topK)[i];
            && TakenFrom(a, b, f.chunkId, f.documentId, f.text)
            && f.rrfScore == RoundTo(Score(60, a, b, f.chunkId), 1000000)
                             + if Text.Contains(f.chunkId, "arima") || Text.Contains(f.chunkId, "backtest") then 0.05
                               else 0.0
  {
    hide Reranked, FusedList, TakenFrom, Score, RoundTo, Text.Contains, Lists;
    var fused := FusedList(DEFAULT_K, a, b);
    assert Candidates(a, b, topK)[i] == Reranked(fused)[i];
    var j := RerankedKeeps(fused, i);
    FusedAreTaken(DEFAULT_K, a, b, j);
    FusedIs(DEFAULT_K, a, b);
  }

  /** After a fresh fit, what the keyword search finds is what the chunk of that id says. */
  lemma KeywordSourcesAreChunks(p: Bm25.Params, chunks: seq<Chunk>, tokens: seq<string>, topK: int,
                                r: Result<seq<Hit>, Bm25.SearchError>, b: seq<Hit>, id: string, documentId: string,
                                text: string) returns (m: nat)
    requires Bm25Theorems.DistinctChunks(chunks) && Bm25Theorems.InRange(p) && Bm25Theorems.IsLog(p.log)
    requires Bm25.IsAnswer(p, Bm25Theorems.FreshFit(p, chunks), tokens, topK, r) && r.Success?
    requires Lists(r.value, id) && TakenFrom(r.value, b, id, documentId, text)
    ensures m < |chunks| && chunks[m].chunkId == id && chunks[m].documentId == documentId && chunks[m].text == text
  {
    hide Bm25.IsAnswer, Bm25Theorems.Direct, Bm25Theorems.Shares, Bm25Theorems.FreshFit;
    var picks := Bm25Theorems.SearchIsBruteForce(p, chunks, tokens, topK, r);
    var i: nat :| Shows(r.value, i, id, documentId, text);
    m := picks[i];
  }

  // ----- The evidence text -----

  /** What a reader of an answer sees: for every candidate, in order, its citation id, its document id and its text;
      the citations lead back to the candidates, and these show what the searches found first. */
  ghost predicate Sourced(a: seq<Hit>, b: seq<Hit>, citations: map<string, Fused>, i: nat, block: string, f: Fused) {
    var id := "Doc-" + Text.Decimal(i + 1);
    && block == "[" + id + "] (Source Document ID: " + f.documentId + ")\nContent: " + f.text
    && id in citations && citations[id] == f
    && TakenFrom(a, b, f.chunkId, f.documentId, f.text)
  }

  lemma CandidateIsSourced(a: seq<Hit>, b: seq<Hit>, topK: int, i: nat)
    requires i < |Candidates(a, b, topK)|
    ensures var f := Candidates(a, b, topK)[i];
            Sourced(a, b, Citations(Candidates(a, b, topK)), i, Block(i + 1, f), f)
  {
    hide Candidates, TakenFrom, Citations;
    var top := Candidates(a, b, topK);
    CitationsResolve(top, i);
    CandidatesAreTaken(a, b, topK, i);
  }

  /** There is an answer unless both searches found nothing, or the keyword search found nothing and the best vector
      hit scores too low; and the answer quotes its sources. */
  lemma AnswerIsSourced(a: seq<Hit>, b: seq<Hit>, minScore: real, topK: int) returns (blocks: seq<string>,
                        starts: seq<int>)
    ensures var answer := Answered(a, b, minScore, topK);
            && (answer.InsufficientEvidence? <==> a == [] && (b == [] || b[0].score < minScore))
            && (answer.Evidence? ==>
                  && LaidOut(answer.text, blocks, "\n\n", starts) && |blocks| == |Candidates(a, b, topK)|
                  && forall i | 0 <= i < |blocks| ::
                       Sourced(a, b, answer.citations, i, blocks[i], Candidates(a, b, topK)[i]))
  {
    hide Candidates, Block, LaidOut, Sourced;
    var top := Candidates(a, b, topK);
    blocks := Blocks(top);
    starts := JoinIsLaidOut(blocks, "\n\n");
    forall i | 0 <= i < |top|
      ensures Sourced(a, b, Citations(top), i, blocks[i], top[i])
    {
      CandidateIsSourced(a, b, topK, i);
    }
  }

  /** The same for what the pipeline returns. */
  lemma OutcomeIsSourced(pipeline: HybridRetrievalPipeline, query: string, topK: int,
                         found: Result<seq<Hit>, Bm25.SearchError>, r: Result<Answer, Bm25.SearchError>)
    returns (blocks: seq<string>, starts: seq<int>)
    requires pipeline.Outcome(query, topK, found, r) && r.Success? && r.value.Evidence?
    ensures found.Success? && LaidOut(r.value.text, blocks, "\n\n", starts)
    ensures var a := found.value; var b := pipeline.vectorSearch(query, 5); var top := Candidates(a, b, topK);
            && |blocks| == |top|
            && forall i | 0 <= i < |blocks| :: Sourced(a, b, r.value.citations, i, blocks[i], top[i])
  {
    hide Candidates, LaidOut, Sourced;
    blocks, starts := AnswerIsSourced(found.value, pipeline.vectorSearch(query, 5), pipeline.vectorOnlyMinScore, topK);
  }
}
