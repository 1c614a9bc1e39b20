/** The records of src/agent_runtime/retrieval/models.py, and Python's list slices. */
module Retrieval {
  import opened Wrappers

  datatype Document =
    Document(documentId: string, title: string, sourcePath: string, content: string, trustLevel: string)

  datatype Metadata = Metadata(sourcePath: string, title: string)

  datatype Chunk =
    Chunk(chunkId: string, documentId: string, text: string, metadata: Option<Metadata>, trustLevel: string)

  datatype Hit = Hit(chunkId: string, documentId: string, text: string, score: real, rank: nat)

  /** How many elements `xs[:k]` keeps. A negative k counts from the end. */
  function Kept(size: nat, k: int): (n: nat)
    ensures n <= size
  {
    if k >= size then size else if k >= 0 then k else if size + k >= 0 then size + k else 0
  }

  /** `xs[:k]`. */
  function Prefix<T>(xs: seq<T>, k: int): seq<T> {
    xs[..Kept(|xs|, k)]
  }

  /** The sort key of a dictionary's items. */
  function Second(item: (string, real)): real {
    item.1
  }
}
