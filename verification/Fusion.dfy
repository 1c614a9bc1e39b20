/** Reciprocal rank fusion: src/agent_runtime/retrieval/hybrid.py. */
module Fusion {
  import opened Wrappers
  import opened Sequences
  import opened Sorting
  import opened Rounding
  import opened Retrieval

  datatype Meta = Meta(documentId: string, text: string)

  /** One entry of the fused ranking. */
  datatype Fused = Fused(chunkId: string, documentId: string, text: string, rrfScore: real, combinedRank: nat)

  datatype FusionError = ZeroDivision

  const DEFAULT_K := 60

  /** No rank of a list of n hits makes a denominator zero. */
  predicate Divides(k: int, n: nat) {
    k >= 0 || k + n < 0
  }

  /** What a ranking contributes to one chunk, however often it lists it. */
  function Weight(k: int, hits: seq<Hit>, id: string): real
    requires Divides(k, |hits|)
  {
    if hits == [] then 0.0
    else
      Weight(k, hits[..|hits| - 1], id) +
      if hits[|hits| - 1].chunkId == id then 1.0 / (k + |hits|) as real else 0.0
  }

  /** Dictionary keys in the order in which they are first assigned. */
  function Seen(before: seq<string>, hits: seq<Hit>): seq<string> {
    if hits == [] then before
    else
      var seen := Seen(before, hits[..|hits| - 1]);
      var id := hits[|hits| - 1].chunkId;
      if id in seen then seen else seen + [id]
  }

  function Lookup(before: map<string, Meta>, hits: seq<Hit>): map<string, Meta> {
    if hits == [] then before
    else
      var seen := Lookup(before, hits[..|hits| - 1]);
      var hit := hits[|hits| - 1];
      if hit.chunkId in seen then seen else seen[hit.chunkId := Meta(hit.documentId, hit.text)]
  }

  function Score(k: int, a: seq<Hit>, b: seq<Hit>, id: string): real
    requires Divides(k, |a|) && Divides(k, |b|)
  {
    Weight(k, a, id) + Weight(k, b, id)
  }

  function Order(a: seq<Hit>, b: seq<Hit>): seq<string> {
    Seen(Seen([], a), b)
  }

  function Metas(a: seq<Hit>, b: seq<Hit>): map<string, Meta> {
    Lookup(Lookup(map[], a), b)
  }

  function Entries(k: int, a: seq<Hit>, b: seq<Hit>): seq<(string, real)>
    requires Divides(k, |a|) && Divides(k, |b|)
  {
    seq(|Order(a, b)|, i requires 0 <= i < |Order(a, b)| => (Order(a, b)[i], Score(k, a, b, Order(a, b)[i])))
  }

  function Ranking(k: int, a: seq<Hit>, b: seq<Hit>): seq<(string, real)>
    requires Divides(k, |a|) && Divides(k, |b|)
  {
    SortDesc(Entries(k, a, b), Second)
  }

  function FusedOf(metas: map<string, Meta>, entry: (string, real), rank: nat): Fused {
    var meta := if entry.0 in metas then metas[entry.0] else Meta("", "");
    Fused(entry.0, meta.documentId, meta.text, RoundTo(entry.1, 1000000), rank)
  }

  function FusedList(k: int, a: seq<Hit>, b: seq<Hit>): seq<Fused>
    requires Divides(k, |a|) && Divides(k, |b|)
  {
    var ranking := Ranking(k, a, b);
    seq(|ranking|, i requires 0 <= i < |ranking| => FusedOf(Metas(a, b), ranking[i], i + 1))
  }

  lemma Begins(k: int, hits: seq<Hit>, order: seq<string>, lookup: map<string, Meta>)
    ensures Seen(order, hits[..0]) == order && Lookup(lookup, hits[..0]) == lookup
    ensures forall id :: Weight(k, hits[..0], id) == 0.0
  {
  }

  lemma KeysStep(hits: seq<Hit>, order: seq<string>, lookup: map<string, Meta>, i: nat)
    requires i < |hits|
    ensures var seen := Seen(order, hits[..i]); var id := hits[i].chunkId;
            Seen(order, hits[..i + 1]) == if id in seen then seen else seen + [id]
    ensures var seen := Lookup(lookup, hits[..i]); var id := hits[i].chunkId;
            Lookup(lookup, hits[..i + 1]) ==
            if id in seen then seen else seen[id := Meta(hits[i].documentId, hits[i].text)]
  {
    assert hits[..i + 1][..i] == hits[..i];
  }

  lemma WeightStep(k: int, hits: seq<Hit>, i: nat)
    requires i < |hits| && Divides(k, i + 1)
    ensures forall id :: Weight(k, hits[..i + 1], id) ==
                         Weight(k, hits[..i], id) + if id == hits[i].chunkId then 1.0 / (k + i + 1) as real else 0.0
  {
    assert hits[..i + 1][..i] == hits[..i];
  }

  /** One of the two loops: add a ranking to the three dictionaries. */
  method AddRanking(k: int, hits: seq<Hit>, order: seq<string>, scores: map<string, real>, lookup: map<string, Meta>)
    returns (order': seq<string>, scores': map<string, real>, lookup': map<string, Meta>, ok: bool)
    requires forall id :: id in order <==> id in scores
    ensures ok <==> Divides(k, |hits|)
    ensures ok ==> order' == Seen(order, hits) && lookup' == Lookup(lookup, hits)
    ensures ok ==> forall id :: id in order' <==> id in scores'
    ensures ok ==> forall id | id in scores' ::
                     scores'[id] == Weight(k, hits, id) + if id in scores then scores[id] else 0.0
    ensures ok ==> forall id | id !in scores' :: Weight(k, hits, id) == 0.0
  {
    hide Weight, Seen, Lookup;
    order', scores', lookup', ok := order, scores, lookup, true;
    Begins(k, hits, order, lookup);
    for i := 0 to |hits|
      invariant Divides(k, i)
      invariant order' == Seen(order, hits[..i]) && lookup' == Lookup(lookup, hits[..i])
      invariant scores.Keys <= scores'.Keys && forall id :: id in order' <==> id in scores'
      invariant forall id | id in scores' ::
                  scores'[id] == Weight(k, hits[..i], id) + if id in scores then scores[id] else 0.0
      invariant forall id | id !in scores' :: Weight(k, hits[..i], id) == 0.0
    {
      var rank := i + 1;
      var hit := hits[i];
      KeysStep(hits, order, lookup, i);
      if k + rank == 0 {
        ok := false;
        return;
      }
      WeightStep(k, hits, i);
      var sum := (if hit.chunkId in scores' then scores'[hit.chunkId] else 0.0) + 1.0 / (k + rank) as real;
      if hit.chunkId !in order' {
        order' := order' + [hit.chunkId];
      }
      scores' := scores'[hit.chunkId := sum];
      if hit.chunkId !in lookup' {
        lookup' := lookup'[hit.chunkId := Meta(hit.documentId, hit.text)];
      }
    }
    assert hits[..|hits|] == hits;
  }

  method Fuse(k: int, bm25Hits: seq<Hit>, vectorHits: seq<Hit>) returns (r: Result<seq<Fused>, FusionError>)
    ensures if Divides(k, |bm25Hits|) && Divides(k, |vectorHits|) then r == Success(FusedList(k, bm25Hits, vectorHits))
            else r == Failure(ZeroDivision)
  {
    hide Weight, Seen, Lookup, SortDesc, FusedOf;
    var order, scores, lookup, ok := AddRanking(k, bm25Hits, [], map[], map[]);
    if !ok {
      return Failure(ZeroDivision);
    }
    order, scores, lookup, ok := AddRanking(k, vectorHits, order, scores, lookup);
    if !ok {
      return Failure(ZeroDivision);
    }
    var items := seq(|order|, i requires 0 <= i < |order| => assert order[i] in order; (order[i], scores[order[i]]));
    assert items == Entries(k, bm25Hits, vectorHits) by {
      forall i | 0 <= i < |order|
        ensures items[i] == (order[i], Score(k, bm25Hits, vectorHits, order[i]))
      {
        assert order[i] in order;
      }
    }
    var sorted := SortDesc(items, Second);
    var fused := [];
    for i := 0 to |sorted|
      invariant fused == seq(i, j requires 0 <= j < i => FusedOf(lookup, sorted[j], j + 1))
    {
      fused := fused + [FusedOf(lookup, sorted[i], i + 1)];
    }
    assert fused == FusedList(k, bm25Hits, vectorHits);
    return Success(fused);
  }

  // ----- What the dictionaries hold -----

  predicate Lists(hits: seq<Hit>, id: string) {
    exists i | 0 <= i < |hits| :: hits[i].chunkId == id
  }

  lemma {:induction false} SeenIs(before: seq<string>, hits: seq<Hit>)
    requires Distinct(before)
    ensures Distinct(Seen(before, hits))
    ensures forall id :: id in Seen(before, hits) <==> id in before || Lists(hits, id)
  {
    if hits != [] {
      var n := |hits| - 1;
      SeenIs(before, hits[..n]);
      forall id
        ensures Lists(hits, id) <==> Lists(hits[..n], id) || hits[n].chunkId == id
      {
        if Lists(hits[..n], id) {
          var i :| 0 <= i < n && hits[..n][i].chunkId == id;
          assert hits[i].chunkId == id;
        }
      }
    }
  }

  lemma OrderIs(a: seq<Hit>, b: seq<Hit>)
    ensures Distinct(Order(a, b))
    ensures forall id :: id in Order(a, b) <==> Lists(a, id) || Lists(b, id)
  {
    SeenIs([], a);
    SeenIs(Seen([], a), b);
  }
}
