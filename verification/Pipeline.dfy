/** Reranking, citations and the whole pipeline: src/agent_runtime/retrieval/{reranker,citations,pipeline}.py. */
module Pipeline {
  import opened Wrappers
  import opened Sequences
  import opened Sorting
  import opened Retrieval
  import opened Fusion
  import Bm25
  import Text

  // ----- Reranking -----

  const BOOST := 0.05

  predicate Favoured(f: Fused) {
    Text.Contains(f.chunkId, "arima") || Text.Contains(f.chunkId, "backtest")
  }

  function Boosted(f: Fused): Fused {
    if Favoured(f) then f.(rrfScore := f.rrfScore + BOOST) else f
  }

  function RrfScore(f: Fused): real {
    f.rrfScore
  }

  function Reranked(fused: seq<Fused>): seq<Fused> {
    SortDesc(Map(fused, Boosted), RrfScore)
  }

  method Rerank(fusedHits: seq<Fused>) returns (r: seq<Fused>)
    ensures r == Reranked(fusedHits)
  {
    hide Favoured;
    var hits := fusedHits;
    for i := 0 to |hits|
      invariant |hits| == |fusedHits|
      invariant forall j | 0 <= j < |hits| :: hits[j] == if j < i then Boosted(fusedHits[j]) else fusedHits[j]
    {
      if Favoured(hits[i]) {
        hits := hits[i := hits[i].(rrfScore := hits[i].rrfScore + BOOST)];
      }
    }
    assert hits == Map(fusedHits, Boosted);
    return SortDesc(hits, RrfScore);
  }

  // ----- Citations -----

  function CitationId(idx: nat): string {
    "Doc-" + Text.Decimal(idx)
  }

  function Block(idx: nat, f: Fused): string {
    "[" + CitationId(idx) + "] (Source Document ID: " + f.documentId + ")\nContent: " + f.text
  }

  function Blocks(top: seq<Fused>): seq<string> {
    seq(|top|, i requires 0 <= i < |top| => Block(i + 1, top[i]))
  }

  function Citations(top: seq<Fused>): map<string, Fused> {
    if top == [] then map[] else Citations(top[..|top| - 1])[CitationId(|top|) := top[|top| - 1]]
  }

  method BuildCitations(top: seq<Fused>) returns (evidence: string, citations: map<string, Fused>)
    ensures evidence == Text.Join(Blocks(top), "\n\n") && citations == Citations(top)
  {
    hide Block;
    var blocks := [];
    citations := map[];
    for i := 0 to |top|
      invariant blocks == Blocks(top[..i]) && citations == Citations(top[..i])
    {
      assert top[..i + 1][..i] == top[..i];
      blocks := blocks + [Block(i + 1, top[i])];
      citations := citations[CitationId(i + 1) := top[i]];
    }
    assert top[..|top|] == top;
    evidence := Text.Join(blocks, "\n\n");
  }

  // ----- The pipeline -----

  datatype Answer = InsufficientEvidence | Evidence(text: string, citations: map<string, Fused>)

  const CANDIDATES := 5

  function Candidates(bm25Hits: seq<Hit>, vectorHits: seq<Hit>, topK: int): seq<Fused> {
    Prefix(Reranked(FusedList(DEFAULT_K, bm25Hits, vectorHits)), topK)
  }

  function Answered(bm25Hits: seq<Hit>, vectorHits: seq<Hit>, minScore: real, topK: int): Answer {
    if bm25Hits == [] && vectorHits == [] then InsufficientEvidence
    else if bm25Hits == [] && vectorHits[0].score < minScore then InsufficientEvidence
    else
      var top := Candidates(bm25Hits, vectorHits, topK);
      Evidence(Text.Join(Blocks(top), "\n\n"), Citations(top))
  }

  class HybridRetrievalPipeline {
    const bm25: Bm25.BM25Retriever
    const vectorSearch: (string, int) -> seq<Hit>
    const vectorOnlyMinScore: real

    constructor (bm25: Bm25.BM25Retriever, vectorSearch: (string, int) -> seq<Hit>, vectorOnlyMinScore: real)
      ensures this.bm25 == bm25 && this.vectorSearch == vectorSearch && this.vectorOnlyMinScore == vectorOnlyMinScore
    {
      this.bm25, this.vectorSearch, this.vectorOnlyMinScore := bm25, vectorSearch, vectorOnlyMinScore;
    }

    ghost predicate Outcome(query: string, topK: int, found: Result<seq<Hit>, Bm25.SearchError>,
                            r: Result<Answer, Bm25.SearchError>)
    {
      match found
      case Failure(e) => r == Failure(e)
      case Success(hits) => r == Success(Answered(hits, vectorSearch(query, CANDIDATES), vectorOnlyMinScore, topK))
    }

    /** The answer for some ranking of the keyword hits: chunks with equal scores may come in any order. */
    method ExecutePipeline(query: string, topK: int) returns (r: Result<Answer, Bm25.SearchError>)
      requires Bm25.Consistent(bm25.View())
      ensures exists found ::
                && Bm25.IsAnswer(bm25.p, bm25.View(), bm25.p.tokenize(query), CANDIDATES, found)
                && Outcome(query, topK, found, r)
    {
      hide Reranked, FusedList, Blocks, Citations, Bm25.IsAnswer;
      var found := bm25.Search(query, CANDIDATES);
      if found.Failure? {
        r := Failure(found.error);
        assert Outcome(query, topK, found, r);
        return;
      }
      var bm25Hits := found.value;
      var vectorHits := vectorSearch(query, CANDIDATES);
      if bm25Hits == [] && vectorHits == [] {
        r := Success(InsufficientEvidence);
        assert Outcome(query, topK, found, r);
        return;
      }
      if bm25Hits == [] && vectorHits != [] {
        if vectorHits[0].score < vectorOnlyMinScore {
          r := Success(InsufficientEvidence);
          assert Outcome(query, topK, found, r);
          return;
        }
      }
      var fused := Fuse(DEFAULT_K, bm25Hits, vectorHits);
      var reranked := Rerank(fused.value);
      var evidence, citations := BuildCitations(Prefix(reranked, topK));
      r := Success(Evidence(evidence, citations));
      assert Outcome(query, topK, found, r);
    }
  }

  /** Each citation id in the evidence leads back to its own candidate. */
  lemma {:induction false} CitationsResolve(top: seq<Fused>, i: nat)
    requires i < |top|
    ensures CitationId(i + 1) in Citations(top) && Citations(top)[CitationId(i + 1)] == top[i]
  {
    var n := |top| - 1;
    if i < n {
      CitationsResolve(top[..n], i);
      if CitationId(i + 1) == CitationId(n + 1) {
        assert CitationId(i + 1)[4..] == Text.Decimal(i + 1) && CitationId(n + 1)[4..] == Text.Decimal(n + 1);
        Text.DecimalIsInjective(i + 1, n + 1);
      }
    }
  }

  /** There are no other citations. */
  lemma {:induction false} CitationsAreCandidates(top: seq<Fused>, id: string) returns (i: nat)
    requires id in Citations(top)
    ensures i < |top| && id == CitationId(i + 1)
  {
    if id != CitationId(|top|) {
      i := CitationsAreCandidates(top[..|top| - 1], id);
    } else {
      i := |top| - 1;
    }
  }
}
