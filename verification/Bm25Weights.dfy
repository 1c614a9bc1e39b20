/** What the BM25 weights mean: rarer tokens weigh more, more occurrences score higher, longer chunks do not. */
module Bm25Weights {
  import opened Numbers
  import opened Wrappers
  import opened Rounding
  import opened Sequences
  import opened Retrieval
  import opened Bm25
  import opened Bm25Theorems

  // ----- Tokens -----

  lemma QuotientIs(x: real, y: real, q: real)
    requires y > 0.0 && q * y == x
    ensures x / y == q
  {
    var r := x / y;
    assert r * y == x;
    Scale(q, r, y);
    Scale(r, q, y);
  }

  lemma AddOne(x: real, y: real)
    requires y > 0.0
    ensures x / y + 1.0 == (x + y) / y
  {
    var q := x / y;
    assert q * y == x;
    assert (q + 1.0) * y == q * y + y;
    QuotientIs(x + y, y, q + 1.0);
  }

  lemma LargerBelow(x: real, y: real, z: real)
    requires x > 0.0 && 0.0 < y < z
    ensures 0.0 < x / z < x / y
  {
    CrossMultiply(x, y, x, z);
    Scale(z, y, x);
  }

  /** The weight of a token that `containing` of the chunks contain, in closed form. */
  lemma IdfIs(p: Params, numDocs: nat, containing: nat)
    ensures Idf(p, numDocs, containing) == p.log((numDocs as real + 1.0) / (containing as real + 0.5))
  {
    AddOne(numDocs as real - containing as real + 0.5, containing as real + 0.5);
  }

  /** Of two tokens, the one in fewer chunks weighs strictly more. */
  lemma RarerWeighsMore(p: Params, numDocs: nat, fewer: nat, more: nat)
    requires IsLog(p.log) && fewer < more
    ensures Idf(p, numDocs, fewer) > Idf(p, numDocs, more)
  {
    IdfIs(p, numDocs, fewer);
    IdfIs(p, numDocs, more);
    LargerBelow(numDocs as real + 1.0, fewer as real + 0.5, more as real + 0.5);
  }

  // ----- Occurrences and length -----

  lemma {:induction false} TotalAdds(p: Params, a: seq<Chunk>, b: seq<Chunk>)
    ensures TotalTokens(p, a + b) == TotalTokens(p, a) + TotalTokens(p, b)
  {
    if b == [] {
      assert a + b == a;
    } else {
      var n := |b| - 1;
      TotalAdds(p, a, b[..n]);
      assert (a + b)[..|a + b| - 1] == a + b[..n];
    }
  }

  lemma OneTotal(p: Params, chunk: Chunk)
    ensures TotalTokens(p, [chunk]) == |TokensOf(p, chunk)| && TotalTokens(p, []) == 0
  {
    assert [chunk][..0] == [];
  }

  /** The average length is the number of all tokens, chunk by chunk, over the number of chunks. */
  lemma AverageIs(p: Params, chunks: seq<Chunk>, chunk: Chunk)
    ensures AverageLength(p, chunks) * |chunks| as real == TotalTokens(p, chunks) as real
    ensures TotalTokens(p, chunks + [chunk]) == TotalTokens(p, chunks) + |TokensOf(p, chunk)|
  {
    hide TotalTokens;
    TotalAdds(p, chunks, [chunk]);
    OneTotal(p, chunk);
    if chunks == [] {
      OneTotal(p, chunk);
    } else {
      Unscale(TotalTokens(p, chunks) as real, |chunks| as real);
    }
  }

  /** The length of a chunk relative to the average, blended with one. */
  function Blend(b: real, y: real): real {
    1.0 - b + b * y
  }

  /** What the length of a chunk adds to the denominator. */
  function Damping(p: Params, length: nat, avgdl: real): real
    requires avgdl != 0.0
  {
    p.k1 * Blend(p.b, length as real / avgdl)
  }

  lemma BlendAnchors(b: real, y: real)
    ensures b == 0.0 || y == 1.0 ==> Blend(b, y) == 1.0
    ensures b == 1.0 ==> Blend(b, y) == y
  {
    if b == 0.0 {
      assert b * y == 0.0;
    } else if b == 1.0 || y == 1.0 {
      assert b * y == if b == 1.0 then y else b;
    }
  }

  /** The saturation at its fixed points: the length does not matter at the average or with b = 0, and scales the
      damping with b = 1. */
  lemma SaturationAnchors(p: Params, tf: nat, length: nat, avgdl: real)
    requires avgdl > 0.0
    ensures Saturation(p, tf, length, avgdl) == tf as real + Damping(p, length, avgdl)
    ensures length as real == avgdl || p.b == 0.0 ==> Damping(p, length, avgdl) == p.k1
    ensures p.b == 1.0 ==> Damping(p, length, avgdl) == Times(p.k1, length as real / avgdl)
  {
    BlendAnchors(p.b, length as real / avgdl);
    if length as real == avgdl {
      QuotientIs(length as real, avgdl, 1.0);
    }
  }

  lemma ProductOrder(x: real, y: real, z: real)
    requires z >= 0.0 && x <= y
    ensures x * z <= y * z && z * x <= z * y
    ensures x < y ==> (z * x < z * y <==> z > 0.0)
  {
    assert y * z - x * z == (y - x) * z;
  }

  lemma QuotientOrder(x: real, y: real, z: real)
    requires z > 0.0 && x <= y
    ensures x / z <= y / z && (x < y ==> x / z < y / z)
  {
    var d := y - x;
    assert d / z >= 0.0 && (d > 0.0 ==> d / z > 0.0);
    assert y / z == x / z + d / z;
  }

  lemma BlendOrder(b: real, x: real, y: real)
    requires 0.0 <= b <= 1.0 && 0.0 <= x <= y
    ensures 0.0 <= Blend(b, x) <= Blend(b, y)
    ensures y > 0.0 ==> Blend(b, y) > 0.0
    ensures x < y ==> (Blend(b, x) < Blend(b, y) <==> b > 0.0)
  {
    ProductOrder(0.0, x, b);
    ProductOrder(x, y, b);
    if b == 1.0 {
      assert b * y == y;
    }
  }

  lemma RatioOrder(short: nat, long: nat, avgdl: real)
    requires avgdl > 0.0 && short <= long
    ensures 0.0 <= short as real / avgdl <= long as real / avgdl
    ensures short < long ==> short as real / avgdl < long as real / avgdl
    ensures long > 0 ==> long as real / avgdl > 0.0
  {
    QuotientOrder(0.0, short as real, avgdl);
    QuotientOrder(0.0, long as real, avgdl);
    QuotientOrder(short as real, long as real, avgdl);
    assert 0.0 / avgdl == 0.0;
  }

  lemma DampingOrder(p: Params, short: nat, long: nat, avgdl: real)
    requires InRange(p) && avgdl > 0.0 && short <= long
    ensures 0.0 <= Damping(p, short, avgdl) <= Damping(p, long, avgdl)
    ensures short < long ==> (Damping(p, short, avgdl) < Damping(p, long, avgdl) <==> p.k1 > 0.0 && p.b > 0.0)
    ensures long > 0 ==> (Damping(p, long, avgdl) > 0.0 <==> p.k1 > 0.0)
  {
    hide Blend;
    var x, y := short as real / avgdl, long as real / avgdl;
    RatioOrder(short, long, avgdl);
    BlendOrder(p.b, x, y);
    ProductOrder(Blend(p.b, x), Blend(p.b, y), p.k1);
    ProductOrder(0.0, Blend(p.b, x), p.k1);
    ProductOrder(0.0, Blend(p.b, y), p.k1);
  }

  lemma CrossDifference(a: real, d: real, b: real, e: real, k: real)
    ensures (a * k) * (b + e) - (b * k) * (a + d) == Times(a * e, k) - Times(b * d, k)
  {
  }

  lemma CrossIff(a: real, b: real, c: real, d: real, x: real, y: real, k: real)
    requires b > 0.0 && d > 0.0 && k > 0.0 && a * d - c * b == Times(x, k) - Times(y, k)
    ensures a / b > c / d <==> x > y
    ensures a / b >= c / d <==> x >= y
  {
    CrossMultiply(a, b, c, d);
    CrossMultiply(c, d, a, b);
    Scale(x, y, k);
    Scale(y, x, k);
  }

  lemma CountsAgainstDamping(a: real, d: real, b: real, e: real)
    requires a >= b > 0.0 && 0.0 <= d <= e
    ensures a * e >= b * d
    ensures a > b ==> (a * e > b * d <==> e > 0.0)
    ensures a == b ==> (a * e > b * d <==> d < e)
  {
    ProductOrder(b, a, e);
    ProductOrder(d, e, b);
  }

  /** One saturated count against another. */
  lemma SaturatedOrder(a: real, d: real, b: real, e: real, k: real)
    requires a >= b > 0.0 && 0.0 <= d <= e && k > 0.0
    ensures a * k / (a + d) >= b * k / (b + e)
    ensures a > b ==> (a * k / (a + d) > b * k / (b + e) <==> e > 0.0)
    ensures a == b ==> (a * k / (a + d) > b * k / (b + e) <==> d < e)
  {
    hide Times;
    CrossDifference(a, d, b, e, k);
    CrossIff(a * k, a + d, b * k, b + e, a * e, b * d, k);
    CountsAgainstDamping(a, d, b, e);
  }

  lemma TimesOrder(z: real, x: real, y: real)
    requires z > 0.0
    ensures x < y <==> Times(z, x) < Times(z, y)
    ensures x < y <==> Times(x, z) < Times(y, z)
  {
    Scale(y, x, z);
  }

  function CountIn(p: Params, token: string, chunk: Chunk): nat {
    multiset(TokensOf(p, chunk))[token]
  }

  /** The saturated count that a token's weight is multiplied with. */
  function Share(tf: nat, k1: real, damping: real): real {
    if tf as real + damping == 0.0 then 0.0 else tf as real * (k1 + 1.0) / (tf as real + damping)
  }

  function DampingOf(p: Params, chunks: seq<Chunk>, chunk: Chunk): real {
    var avgdl := AverageLength(p, chunks);
    if avgdl == 0.0 then 0.0 else Damping(p, |TokensOf(p, chunk)|, avgdl)
  }

  lemma TermIs(p: Params, chunks: seq<Chunk>, token: string, k: nat)
    requires InRange(p) && IsLog(p.log) && k < |chunks|
    ensures CountIn(p, token, chunks[k]) == 0 ==> Term(p, chunks, token, chunks[k]) == 0.0
    ensures CountIn(p, token, chunks[k]) > 0 ==>
              && AverageLength(p, chunks) > 0.0 && Idf(p, |chunks|, DocFreq(p, chunks, token)) > 0.0
              && Term(p, chunks, token, chunks[k]) == Times(
                   Idf(p, |chunks|, DocFreq(p, chunks, token)),
                   Share(CountIn(p, token, chunks[k]), p.k1, DampingOf(p, chunks, chunks[k])))
  {
    hide AverageLength, DocFreq, Idf, Saturation, Damping;
    var tf := CountIn(p, token, chunks[k]);
    if tf > 0 {
      assert token in TokensOf(p, chunks[k]);
      AverageIsPositive(p, chunks, k);
      SaturationIsPositive(p, tf, |TokensOf(p, chunks[k])|, AverageLength(p, chunks));
      SaturationAnchors(p, tf, |TokensOf(p, chunks[k])|, AverageLength(p, chunks));
      DocFreqBound(p, chunks, token);
      IdfIsPositive(p, |chunks|, DocFreq(p, chunks, token));
    }
  }

  lemma ShareOrder(m: nat, d: real, n: nat, e: real, k1: real)
    requires m >= n > 0 && 0.0 <= d <= e && k1 >= 0.0
    ensures Share(m, k1, d) >= Share(n, k1, e)
    ensures m > n ==> (Share(m, k1, d) > Share(n, k1, e) <==> e > 0.0)
    ensures m == n ==> (Share(m, k1, d) > Share(n, k1, e) <==> d < e)
  {
    SaturatedOrder(m as real, d, n as real, e, k1 + 1.0);
  }

  lemma CountIsLength(p: Params, token: string, chunk: Chunk)
    ensures CountIn(p, token, chunk) > 0 ==> |TokensOf(p, chunk)| > 0
  {
  }

  lemma OccursPositive(p: Params, chunks: seq<Chunk>, token: string, k: nat)
    requires InRange(p) && IsLog(p.log) && k < |chunks| && CountIn(p, token, chunks[k]) > 0
    ensures Term(p, chunks, token, chunks[k]) > 0.0
  {
    hide Term;
    assert token in TokensOf(p, chunks[k]);
    TermIsPositive(p, chunks, token, k);
  }

  /** A token that occurs at least as often in a chunk that is no longer scores at least as high there. More
      occurrences score strictly higher, if only the constant k1 is positive; so does the shorter of two chunks with as
      many, if b is positive too. */
  lemma TermOrder(p: Params, chunks: seq<Chunk>, token: string, j: nat, k: nat)
    requires InRange(p) && IsLog(p.log) && j < |chunks| && k < |chunks|
    requires CountIn(p, token, chunks[j]) >= CountIn(p, token, chunks[k])
    requires |TokensOf(p, chunks[j])| <= |TokensOf(p, chunks[k])|
    ensures var m := CountIn(p, token, chunks[j]); var n := CountIn(p, token, chunks[k]);
            var x := Term(p, chunks, token, chunks[j]); var y := Term(p, chunks, token, chunks[k]);
            && x >= y
            && (m > n ==> (x > y <==> n == 0 || p.k1 > 0.0))
            && (m == n > 0 && |TokensOf(p, chunks[j])| < |TokensOf(p, chunks[k])| ==>
                  (x > y <==> p.k1 > 0.0 && p.b > 0.0))
  {
    hide AverageLength, DocFreq, Idf, Saturation, Damping, Term, Share, CountIn, Times;
    var m, n := CountIn(p, token, chunks[j]), CountIn(p, token, chunks[k]);
    TermIs(p, chunks, token, j);
    TermIs(p, chunks, token, k);
    if n > 0 {
      CountIsLength(p, token, chunks[k]);
      DampingOrder(p, |TokensOf(p, chunks[j])|, |TokensOf(p, chunks[k])|, AverageLength(p, chunks));
      var d, e := DampingOf(p, chunks, chunks[j]), DampingOf(p, chunks, chunks[k]);
      ShareOrder(m, d, n, e, p.k1);
      TimesOrder(Idf(p, |chunks|, DocFreq(p, chunks, token)), Share(n, p.k1, e), Share(m, p.k1, d));
    } else if m > 0 {
      OccursPositive(p, chunks, token, j);
    }
  }

  /** The same for whole queries: more occurrences of a query token score strictly higher. */
  lemma {:induction false} DirectOrder(p: Params, chunks: seq<Chunk>, tokens: seq<string>, j: nat, k: nat)
    requires InRange(p) && IsLog(p.log) && j < |chunks| && k < |chunks|
    requires forall t | t in tokens :: CountIn(p, t, chunks[j]) >= CountIn(p, t, chunks[k])
    requires |TokensOf(p, chunks[j])| <= |TokensOf(p, chunks[k])|
    ensures Direct(p, chunks, tokens, chunks[j]) >= Direct(p, chunks, tokens, chunks[k])
    ensures p.k1 > 0.0 && (exists t | t in tokens :: CountIn(p, t, chunks[j]) > CountIn(p, t, chunks[k])) ==>
              Direct(p, chunks, tokens, chunks[j]) > Direct(p, chunks, tokens, chunks[k])
  {
    hide Term, CountIn;
    if tokens != [] {
      var n := |tokens| - 1;
      DirectOrder(p, chunks, tokens[..n], j, k);
      TermOrder(p, chunks, tokens[n], j, k);
      assert forall t | t in tokens :: t in tokens[..n] || t == tokens[n];
    }
  }

  // ----- Searches -----

  /** A chunk with a higher score comes before one with a lower score in every answer that shows the latter. */
  lemma HigherFirst(p: Params, chunks: seq<Chunk>, tokens: seq<string>, topK: int, r: Result<seq<Hit>, SearchError>,
                    j: nat, k: nat, n: nat)
    requires DistinctChunks(chunks) && InRange(p) && IsLog(p.log) && j < |chunks| && k < |chunks|
    requires IsAnswer(p, FreshFit(p, chunks), tokens, topK, r) && r.Success?
    requires Direct(p, chunks, tokens, chunks[j]) > Direct(p, chunks, tokens, chunks[k])
    requires n < |r.value| && r.value[n].chunkId == chunks[k].chunkId
    ensures exists m | 0 <= m < n :: r.value[m].chunkId == chunks[j].chunkId
  {
    hide IsAnswer, Direct, Shares, FreshFit;
    var picks := SearchIsBruteForce(p, chunks, tokens, topK, r);
    DirectIsPositive(p, chunks, tokens, j);
    DirectIsPositive(p, chunks, tokens, k);
    assert picks[n] == k;
    var m :| 0 <= m < |picks| && picks[m] == j;
    assert m < n;
    assert r.value[m].chunkId == chunks[j].chunkId;
  }

  lemma OneMore(m: nat, x: real)
    ensures (m + 1) as real * x == m as real * x + x
  {
  }

  lemma AbsentAddsNothing(p: Params, chunks: seq<Chunk>, token: string, chunk: Chunk)
    requires token !in TokensOf(p, chunk)
    ensures Term(p, chunks, token, chunk) == 0.0
  {
  }

  lemma OccurrencesStep(tokens: seq<string>, token: string)
    requires tokens != []
    ensures var n := |tokens| - 1;
            multiset(tokens)[token] == multiset(tokens[..n])[token] + if tokens[n] == token then 1 else 0
  {
    var n := |tokens| - 1;
    assert tokens == tokens[..n] + [tokens[n]];
  }

  lemma {:induction false} DirectOfOne(p: Params, chunks: seq<Chunk>, tokens: seq<string>, token: string, k: nat)
    requires k < |chunks| && forall t | t in tokens && t != token :: t !in TokensOf(p, chunks[k])
    ensures Direct(p, chunks, tokens, chunks[k]) ==
            multiset(tokens)[token] as real * Term(p, chunks, token, chunks[k])
  {
    hide Term, TokensOf;
    if tokens != [] {
      var n := |tokens| - 1;
      DirectOfOne(p, chunks, tokens[..n], token, k);
      OccurrencesStep(tokens, token);
      var m, x := multiset(tokens[..n])[token], Term(p, chunks, token, chunks[k]);
      if tokens[n] == token {
        OneMore(m, x);
      } else {
        AbsentAddsNothing(p, chunks, tokens[n], chunks[k]);
      }
    }
  }

  lemma ShareIsPositive(tf: nat, k1: real, damping: real)
    requires tf > 0 && k1 >= 0.0 && damping >= 0.0
    ensures Share(tf, k1, damping) > 0.0
  {
    var x, y := tf as real * (k1 + 1.0), tf as real + damping;
    ProductOrder(0.0, k1 + 1.0, tf as real);
    QuotientOrder(0.0, x, y);
    assert 0.0 / y == 0.0;
  }

  lemma RarerTermIsLarger(p: Params, chunks: seq<Chunk>, rare: string, common: string, j: nat, k: nat)
    requires InRange(p) && IsLog(p.log) && j < |chunks| && k < |chunks|
    requires |TokensOf(p, chunks[j])| == |TokensOf(p, chunks[k])|
    requires CountIn(p, rare, chunks[j]) == CountIn(p, common, chunks[k]) == 1
    requires DocFreq(p, chunks, rare) < DocFreq(p, chunks, common)
    ensures Term(p, chunks, rare, chunks[j]) > Term(p, chunks, common, chunks[k]) > 0.0
  {
    hide Idf, DocFreq, AverageLength, Damping, Term, Share, Times;
    TermIs(p, chunks, rare, j);
    TermIs(p, chunks, common, k);
    OccursPositive(p, chunks, common, k);
    RarerWeighsMore(p, |chunks|, DocFreq(p, chunks, rare), DocFreq(p, chunks, common));
    var damping := DampingOf(p, chunks, chunks[j]);
    DampingOrder(p, |TokensOf(p, chunks[j])|, |TokensOf(p, chunks[j])|, AverageLength(p, chunks));
    ShareIsPositive(1, p.k1, damping);
    TimesOrder(Share(1, p.k1, damping), Idf(p, |chunks|, DocFreq(p, chunks, common)),
               Idf(p, |chunks|, DocFreq(p, chunks, rare)));
  }

  lemma MoreOfMore(m: nat, x: real, n: nat, y: real)
    requires m >= n > 0 && x > y > 0.0
    ensures m as real * x > n as real * y
  {
    ProductOrder(n as real, m as real, x);
    Scale(x, y, n as real);
  }

  /** Of two equally long chunks, each with one token of the query and that once, the one with the rarer token is
      ranked first, as long as the query does not name the other token more often. */
  lemma RarerFirst(p: Params, chunks: seq<Chunk>, tokens: seq<string>, topK: int, r: Result<seq<Hit>, SearchError>,
                   rare: string, common: string, j: nat, k: nat, n: nat)
    requires DistinctChunks(chunks) && InRange(p) && IsLog(p.log) && j < |chunks| && k < |chunks|
    requires IsAnswer(p, FreshFit(p, chunks), tokens, topK, r) && r.Success?
    requires |TokensOf(p, chunks[j])| == |TokensOf(p, chunks[k])|
    requires CountIn(p, rare, chunks[j]) == CountIn(p, common, chunks[k]) == 1
    requires forall t | t in tokens && t != rare :: t !in TokensOf(p, chunks[j])
    requires forall t | t in tokens && t != common :: t !in TokensOf(p, chunks[k])
    requires multiset(tokens)[rare] >= multiset(tokens)[common] > 0
    requires DocFreq(p, chunks, rare) < DocFreq(p, chunks, common)
    requires n < |r.value| && r.value[n].chunkId == chunks[k].chunkId
    ensures exists m | 0 <= m < n :: r.value[m].chunkId == chunks[j].chunkId
  {
    hide IsAnswer, Direct, FreshFit, Term, Idf, DocFreq, AverageLength, Damping;
    DirectOfOne(p, chunks, tokens, rare, j);
    DirectOfOne(p, chunks, tokens, common, k);
    TermIs(p, chunks, rare, j);
    TermIs(p, chunks, common, k);
    TermIsPositive(p, chunks, common, k);
    RarerWeighsMore(p, |chunks|, DocFreq(p, chunks, rare), DocFreq(p, chunks, common));
    RarerTermIsLarger(p, chunks, rare, common, j, k);
    MoreOfMore(multiset(tokens)[rare], Term(p, chunks, rare, chunks[j]),
               multiset(tokens)[common], Term(p, chunks, common, chunks[k]));
    HigherFirst(p, chunks, tokens, topK, r, j, k, n);
  }
}
