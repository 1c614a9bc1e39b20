/** Overlapping chunks of a document: src/agent_runtime/retrieval/chunker.py. */
module Chunker {
  import opened Numbers
  import opened Wrappers
  import opened Retrieval
  import Text

  function ChunkId(doc: Document, idx: nat): string {
    doc.documentId + "_c" + Text.Decimal(idx)
  }

  function PlainChunk(doc: Document): Chunk {
    Chunk(ChunkId(doc, 0), doc.documentId, doc.content, None, doc.trustLevel)
  }

  function SliceChunk(doc: Document, idx: nat, text: string): Chunk {
    Chunk(ChunkId(doc, idx), doc.documentId, text, Some(Metadata(doc.sourcePath, doc.title)), doc.trustLevel)
  }

  /** The texts from `start` on, for slices of `size` that move on by `step`. */
  function Slices(content: string, start: nat, size: nat, step: nat): seq<string>
    requires 0 < step <= size && start <= |content|
    decreases |content| - start
  {
    if start == |content| then []
    else
      var end := Min(start + size, |content|);
      [content[start..end]] + if end == |content| then [] else Slices(content, start + step, size, step)
  }

  function Chunked(doc: Document, texts: seq<string>): seq<Chunk> {
    seq(|texts|, i requires 0 <= i < |texts| => SliceChunk(doc, i, texts[i]))
  }

  // ----- The window -----

  /** One turn of the loop: where the window stands after it, or nothing when the loop ends there. */
  function Turn(length: int, size: int, overlap: int, start: int): Option<int> {
    if start >= length || Min(start + size, length) == length then None else Some(start + (size - overlap))
  }

  /** Where the window stands after n turns, as long as the loop goes on. */
  function Window(length: int, size: int, overlap: int, n: nat): Option<int> {
    if n == 0 then Some(0)
    else
      match Window(length, size, overlap, n - 1)
      case None => None
      case Some(start) => Turn(length, size, overlap, start)
  }

  lemma NothingChunked(doc: Document)
    ensures Chunked(doc, []) == []
  {
  }

  lemma ChunkedNext(doc: Document, texts: seq<string>, text: string)
    ensures Chunked(doc, texts + [text]) == Chunked(doc, texts) + [SliceChunk(doc, |texts|, text)]
  {
  }

  lemma Regrouped(texts: seq<string>, text: string, rest: seq<string>)
    ensures texts + ([text] + rest) == texts + [text] + rest
  {
  }

  lemma SlicesUnfold(content: string, start: nat, size: nat, step: nat)
    requires 0 < step <= size && start < |content|
    ensures var end := Min(start + size, |content|);
            Slices(content, start, size, step) ==
            [content[start..end]] + if end == |content| then [] else Slices(content, start + step, size, step)
  {
  }

  // ----- Termination -----

  lemma {:induction false} Grows(n: nat, step: nat)
    ensures n * step >= 0 && n * (0 - step) <= 0 && (step > 0 ==> n * step >= n)
  {
    if n > 0 {
      Grows(n - 1, step);
      assert n * step == (n - 1) * step + step;
    }
  }

  lemma {:induction false} WindowIs(length: nat, size: nat, overlap: int, n: nat)
    ensures Window(length, size, overlap, n).Some? ==>
              && Window(length, size, overlap, n).value == n * (size - overlap)
              && (n > 0 ==> (n - 1) * (size - overlap) + size < length)
  {
    if n > 0 {
      WindowIs(length, size, overlap, n - 1);
      assert n * (size - overlap) == (n - 1) * (size - overlap) + (size - overlap);
    }
  }

  lemma {:induction false} WindowStays(length: nat, size: nat, overlap: int, n: nat)
    requires size < length && overlap >= size
    ensures Window(length, size, overlap, n).Some? && Window(length, size, overlap, n).value <= 0
  {
    if n > 0 {
      WindowStays(length, size, overlap, n - 1);
    }
  }

  /** The loop on a document longer than one chunk ends exactly when the overlap is smaller than the chunk. */
  lemma EndsIff(length: nat, size: nat, overlap: int)
    requires size < length
    ensures (exists n: nat :: Window(length, size, overlap, n).None?) <==> overlap < size
  {
    hide Window;
    if overlap < size {
      WindowIs(length, size, overlap, length + 1);
      Grows(length, size - overlap);
      assert (length + 1 - 1) * (size - overlap) == length * (size - overlap);
      assert Window(length, size, overlap, length + 1).None?;
    } else {
      forall n: nat
        ensures Window(length, size, overlap, n).Some?
      {
        WindowStays(length, size, overlap, n);
      }
    }
  }

  // ----- The slices -----

  /** Later slices start `overlap` characters before the end of the one before them, so every one adds something. */
  predicate Overlapping(texts: seq<string>, overlap: nat) {
    && (forall i | 0 <= i < |texts| :: |texts[i]| > overlap)
    && (forall i | 0 <= i < |texts| - 1 :: texts[i][|texts[i]| - overlap..] == texts[i + 1][..overlap])
  }

  predicate AllAtLeast(texts: seq<string>, overlap: nat) {
    forall i | 0 <= i < |texts| :: |texts[i]| >= overlap
  }

  function Tails(texts: seq<string>, overlap: nat): string
    requires AllAtLeast(texts, overlap)
  {
    if texts == [] then "" else texts[0][overlap..] + Tails(texts[1..], overlap)
  }

  /** Drop what each chunk but the first repeats, and concatenate. */
  function Rebuilt(texts: seq<string>, overlap: nat): string
    requires AllAtLeast(texts, overlap)
  {
    if texts == [] then "" else if |texts| == 1 then texts[0]
    else texts[0] + Tails(texts[1..], overlap)
  }

  lemma PrependOverlaps(text: string, rest: seq<string>, overlap: nat)
    requires rest != [] && Overlapping(rest, overlap) && |text| > overlap
    requires text[|text| - overlap..] == rest[0][..overlap]
    ensures Overlapping([text] + rest, overlap)
  {
    var texts := [text] + rest;
    forall i | 0 <= i < |texts| - 1
      ensures |texts[i]| > overlap && texts[i][|texts[i]| - overlap..] == texts[i + 1][..overlap]
    {
      if i > 0 {
        assert texts[i] == rest[i - 1] && texts[i + 1] == rest[i];
      }
    }
  }

  lemma SliceOfSlice(content: string, start: nat, end: nat, next: nat, size: nat)
    requires start <= next <= end < |content| && end <= next + size && end == start + size
    ensures content[start..end][next - start..] ==
            content[next..Min(next + size, |content|)][..end - next]
  {
    assert content[start..end][next - start..] == content[next..end];
    assert content[next..Min(next + size, |content|)][..end - next] == content[next..end];
  }

  lemma OneOverlaps(text: string, overlap: nat)
    requires |text| > overlap
    ensures Overlapping([text], overlap)
  {
  }

  lemma {:induction false} SlicesOverlap(content: string, start: nat, size: nat, overlap: nat)
    requires overlap < size && start + overlap < |content|
    ensures var texts := Slices(content, start, size, size - overlap);
            && texts != [] && Overlapping(texts, overlap)
            && texts[0] == content[start..Min(start + size, |content|)]
    decreases |content| - start
  {
    hide Slices, Overlapping;
    var end := Min(start + size, |content|);
    SlicesUnfold(content, start, size, size - overlap);
    if end == |content| {
      OneOverlaps(content[start..end], overlap);
      assert [content[start..end]] + [] == [content[start..end]];
    } else {
      var next := start + (size - overlap);
      SlicesOverlap(content, next, size, overlap);
      SliceOfSlice(content, start, end, next, size);
      PrependOverlaps(content[start..end], Slices(content, next, size, size - overlap), overlap);
    }
  }

  lemma {:induction false} TailsRebuild(content: string, start: nat, size: nat, overlap: nat)
    requires overlap < size && start + overlap < |content|
    ensures var texts := Slices(content, start, size, size - overlap);
            AllAtLeast(texts, overlap) && Tails(texts, overlap) == content[start + overlap..]
    decreases |content| - start
  {
    hide Slices;
    SlicesUnfold(content, start, size, size - overlap);
    SlicesOverlap(content, start, size, overlap);
    var texts := Slices(content, start, size, size - overlap);
    var end := Min(start + size, |content|);
    if end == |content| {
      assert texts[1..] == [];
      assert content[start..end][overlap..] == content[start + overlap..];
    } else {
      var next := start + (size - overlap);
      TailsRebuild(content, next, size, overlap);
      assert texts[1..] == Slices(content, next, size, size - overlap);
      assert content[start..end][overlap..] + content[end..] == content[start + overlap..];
    }
  }

  /** Round trip: a chunked document can be put together again from its chunks. */
  lemma ChunkingRoundTrip(content: string, size: nat, overlap: nat)
    requires overlap < size < |content|
    ensures var texts := Slices(content, 0, size, size - overlap);
            Overlapping(texts, overlap) && Rebuilt(texts, overlap) == content
  {
    SlicesOverlap(content, 0, size, overlap);
    var texts := Slices(content, 0, size, size - overlap);
    var next := size - overlap;
    TailsRebuild(content, next, size, overlap);
    assert texts[1..] == Slices(content, next, size, size - overlap);
    assert content[..size] + content[size..] == content;
  }

  function CeilDiv(a: nat, b: nat): nat
    requires b > 0
  {
    (a + b - 1) / b
  }

  lemma Multiple(d: int, b: nat)
    ensures d > 0 ==> d * b >= b
    ensures d < 0 ==> d * b <= 0 - b
  {
    if d > 0 {
      Grows(b, d);
      assert d * b == b * d;
    } else if d < 0 {
      Grows(b, -d);
      assert d * b == 0 - b * -d;
    }
  }

  lemma QuotientIs(x: int, b: int, q: int, r: int)
    requires 0 <= r < b && x == q * b + r
    ensures x / b == q
  {
    var d := q - x / b;
    assert d * b == x % b - r;
    Multiple(d, b);
  }

  lemma CeilDivStep(a: nat, b: nat)
    requires b > 0
    ensures CeilDiv(a + b, b) == CeilDiv(a, b) + 1
    ensures 0 < a <= b ==> CeilDiv(a, b) == 1
  {
    var x := a + b - 1;
    var q := x / b;
    assert (q + 1) * b == q * b + b;
    QuotientIs(x + b, b, q + 1, x % b);
    if 0 < a <= b {
      QuotientIs(x, b, 1, a - 1);
    }
  }

  /** The number of chunks. */
  lemma {:induction false} ChunkCount(content: string, start: nat, size: nat, overlap: nat)
    requires overlap < size && start + overlap < |content|
    ensures |Slices(content, start, size, size - overlap)| == CeilDiv(|content| - start - overlap, size - overlap)
    decreases |content| - start
  {
    var step := size - overlap;
    if start + size < |content| {
      ChunkCount(content, start + step, size, overlap);
      CeilDivStep(|content| - start - step - overlap, step);
    } else {
      CeilDivStep(|content| - start - overlap, step);
    }
  }

  /** Chunk ids are unique within a document. */
  lemma ChunkIdsDiffer(doc: Document, i: nat, j: nat)
    requires ChunkId(doc, i) == ChunkId(doc, j)
    ensures i == j
  {
    var n := |doc.documentId + "_c"|;
    assert ChunkId(doc, i)[n..] == Text.Decimal(i) && ChunkId(doc, j)[n..] == Text.Decimal(j);
    Text.DecimalIsInjective(i, j);
  }

  // ----- The chunks themselves -----

  /** The text of chunk i: up to `size` characters from the i-th multiple of `step` on. */
  predicate IsSlice(content: string, size: nat, step: nat, i: nat, text: string) {
    var start := i * step;
    0 <= start < |content| && text == content[start..Min(start + size, |content|)]
  }

  lemma NextMultiple(i: nat, step: nat)
    requires i > 0
    ensures i * step == (i - 1) * step + step
  {
  }

  lemma {:induction false} SliceIs(content: string, start: nat, size: nat, step: nat, i: nat)
    requires 0 < step <= size && start < |content| && i < |Slices(content, start, size, step)|
    ensures start + i * step < |content|
    ensures Slices(content, start, size, step)[i] ==
            content[start + i * step..Min(start + i * step + size, |content|)]
    decreases i
  {
    hide Slices;
    SlicesUnfold(content, start, size, step);
    if i > 0 {
      NextMultiple(i, step);
      SliceIs(content, start + step, size, step, i - 1);
    }
  }

  lemma FirstSliceIs(content: string, size: nat, step: nat, i: nat)
    requires 0 < step <= size && content != "" && i < |Slices(content, 0, size, step)|
    ensures IsSlice(content, size, step, i, Slices(content, 0, size, step)[i])
  {
    hide Slices;
    SliceIs(content, 0, size, step, i);
    if i > 0 {
      Grows(i, step);
    }
  }

  function Texts(chunks: seq<Chunk>): seq<string> {
    seq(|chunks|, i requires 0 <= i < |chunks| => chunks[i].text)
  }

  /** The result of chunking, chunk by chunk. A document that fits is one chunk without metadata. */
  predicate IsChunking(doc: Document, size: nat, overlap: nat, chunks: seq<Chunk>)
    requires |doc.content| <= size || overlap < size
  {
    && (forall i | 0 <= i < |chunks| ::
          && chunks[i].chunkId == doc.documentId + "_c" + Text.Decimal(i)
          && chunks[i].documentId == doc.documentId && chunks[i].trustLevel == doc.trustLevel)
    && if |doc.content| <= size then |chunks| == 1 && chunks[0].text == doc.content && chunks[0].metadata == None
       else
         && |chunks| == CeilDiv(|doc.content| - overlap, size - overlap)
         && (forall i | 0 <= i < |chunks| :: IsSlice(doc.content, size, size - overlap, i, chunks[i].text))
         && (forall i | 0 <= i < |chunks| :: chunks[i].metadata == Some(Metadata(doc.sourcePath, doc.title)))
         && Overlapping(Texts(chunks), overlap) && Rebuilt(Texts(chunks), overlap) == doc.content
  }

  lemma PlainIsChunking(doc: Document, size: nat, overlap: nat)
    requires |doc.content| <= size
    ensures IsChunking(doc, size, overlap, [PlainChunk(doc)])
  {
  }

  lemma ChunkedIs(doc: Document, size: nat, overlap: nat)
    requires overlap < size < |doc.content|
    ensures IsChunking(doc, size, overlap, Chunked(doc, Slices(doc.content, 0, size, size - overlap)))
  {
    hide Slices, Overlapping, Rebuilt, IsSlice, CeilDiv;
    var texts := Slices(doc.content, 0, size, size - overlap);
    var chunks := Chunked(doc, texts);
    ChunkingRoundTrip(doc.content, size, overlap);
    ChunkCount(doc.content, 0, size, overlap);
    assert Texts(chunks) == texts;
    forall i | 0 <= i < |chunks|
      ensures IsSlice(doc.content, size, size - overlap, i, chunks[i].text)
    {
      FirstSliceIs(doc.content, size, size - overlap, i);
    }
  }

  /** The loop is only entered for a document longer than one chunk, and then only ends if the window moves on. */
  method ChunkDocument(doc: Document, chunkSize: nat, overlap: nat) returns (chunks: seq<Chunk>)
    requires |doc.content| <= chunkSize || overlap < chunkSize
    ensures IsChunking(doc, chunkSize, overlap, chunks)
    ensures |doc.content| > chunkSize ==>
              && chunks != [] && Window(|doc.content|, chunkSize, overlap, |chunks| - 1).Some?
              && Window(|doc.content|, chunkSize, overlap, |chunks|) == None
  {
    hide Slices, SliceChunk, Chunked, PlainChunk, IsChunking;
    chunks := [];
    var content := doc.content;
    var length := |content|;
    var start, chunkIdx := 0, 0;
    if length <= chunkSize {
      PlainIsChunking(doc, chunkSize, overlap);
      return [PlainChunk(doc)];
    }
    NothingChunked(doc);
    ghost var texts: seq<string> := [];
    ghost var all := Slices(content, 0, chunkSize, chunkSize - overlap);
    while start < length
      invariant start < length && chunkIdx == |texts| == |chunks| && chunks == Chunked(doc, texts)
      invariant Window(length, chunkSize, overlap, chunkIdx) == Some(start)
      invariant all == texts + Slices(content, start, chunkSize, chunkSize - overlap)
      decreases length - start
    {
      var end := Min(start + chunkSize, length);
      var textSlice := content[start..end];
      SlicesUnfold(content, start, chunkSize, chunkSize - overlap);
      ghost var rest := Slices(content, start, chunkSize, chunkSize - overlap)[1..];
      Regrouped(texts, textSlice, rest);
      ChunkedNext(doc, texts, textSlice);
      chunks := chunks + [SliceChunk(doc, chunkIdx, textSlice)];
      texts := texts + [textSlice];
      chunkIdx := chunkIdx + 1;
      start := start + (chunkSize - overlap);
      if end == length {
        assert all == texts + [];
        assert Window(length, chunkSize, overlap, chunkIdx) == None;
        break;
      }
    }
    assert all == texts + [] == texts;
    ChunkedIs(doc, chunkSize, overlap);
  }
}
