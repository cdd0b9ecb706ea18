// The embedding generator: chunk texts are sent to the embedding service
// in consecutive batches and each chunk dictionary is updated in place
// with its vector, or with an error when its batch failed.

module EmbeddingGenerator {
  import opened Records

  /** One call of the embedding service (retries included) for a list of
   *  texts: the vectors in input order, or the exception it raised. */
  type BatchEmbedder = seq<string> -> Result<seq<Embedding>>

  /** The service's answer for a list of texts. */
  function Reply(embed: BatchEmbedder, texts: seq<string>): Result<seq<Embedding>> {
    embed(texts)
  }

  function Min(a: int, b: int): int { if a < b then a else b }

  function Texts(cs: seq<Chunk>): (ts: seq<string>)
    ensures |ts| == |cs|
    ensures forall k :: 0 <= k < |cs| ==> ts[k] == cs[k].chunkText
  {
    if cs == [] then [] else [cs[0].chunkText] + Texts(cs[1..])
  }

  /** The batch that starts at `start`: chunks start .. start+size-1,
   *  cut off at the end of the list. */
  function Batch(cs: seq<Chunk>, size: nat, start: nat): seq<Chunk>
    requires start <= |cs|
  {
    cs[start..Min(start + size, |cs|)]
  }

  /** The texts sent to the service by the batches starting at `start`,
   *  `start + size`, ... before the end of the list. */
  function CallsFrom(cs: seq<Chunk>, size: nat, start: nat): seq<seq<string>>
    requires size > 0
    decreases |cs| - start
  {
    if start >= |cs| then []
    else [Texts(Batch(cs, size, start))] + CallsFrom(cs, size, start + size)
  }

  /** Every call made for a list of chunks, in order. */
  function Calls(cs: seq<Chunk>, size: nat): seq<seq<string>>
    requires size > 0
  {
    CallsFrom(cs, size, 0)
  }

  /** Chunk `j` of a batch once the service answered `res`: the vector
   *  at its position if the service returned one (zip stops at the
   *  shorter list), or no vector and the service's error. */
  function Answer(c: Chunk, res: Result<seq<Embedding>>, j: nat): Chunk {
    match res
    case Failure(e) => c.(embedding := None, error := Some(e))
    case Success(vs) => if j < |vs| then c.(embedding := Some(vs[j])) else c
  }

  /** The start of the batch holding chunk k: 0, size, 2*size, ... */
  function BatchStart(k: nat, size: nat): (s: nat)
    requires size > 0
    ensures s <= k < s + size
    decreases k
  {
    if k < size then 0 else size + BatchStart(k - size, size)
  }

  /** Chunk k once its batch came back. */
  function EmbeddedAt(cs: seq<Chunk>, size: nat, embed: BatchEmbedder, k: nat): Chunk
    requires size > 0 && k < |cs|
  {
    var s := BatchStart(k, size);
    Answer(cs[k], Reply(embed, Texts(cs[s..Min(s + size, |cs|)])), k - s)
  }

  /** All chunks after generate_embeddings with a positive batch size. */
  function Embedded(cs: seq<Chunk>, size: nat, embed: BatchEmbedder): (r: seq<Chunk>)
    requires size > 0
    ensures |r| == |cs|
  {
    seq(|cs|, k requires 0 <= k < |cs| => EmbeddedAt(cs, size, embed, k))
  }

  /** What generate_embeddings returns (or raises) for a list of chunks. */
  function Generated(cs: seq<Chunk>, batchSize: int, embed: BatchEmbedder): Result<seq<Chunk>> {
    if cs == [] then Success([])
    else if batchSize == 0 then Failure("range() arg 3 must not be zero")
    else if batchSize < 0 then Success(cs)
    else Success(Embedded(cs, batchSize, embed))
  }

  /** Embedding only fills in `embedding` and `error`: every chunk keeps
   *  its text, position, url, title and metadata. */
  lemma GeneratedKeepsChunks(cs: seq<Chunk>, batchSize: int, embed: BatchEmbedder)
    ensures Generated(cs, batchSize, embed).Success? ==>
              var r := Generated(cs, batchSize, embed).value;
              |r| == |cs| &&
              forall k :: 0 <= k < |cs| ==>
                r[k].chunkText == cs[k].chunkText && r[k].chunkIndex == cs[k].chunkIndex &&
                r[k].url == cs[k].url && r[k].title == cs[k].title && r[k].metadata == cs[k].metadata
  {
  }

  /** generate_embeddings. The list is updated in place and also
   *  returned; an empty list returns a new empty list; a zero batch size
   *  raises ValueError from range(); a negative one makes no batch. */
  method GenerateEmbeddings(chunks: array<Chunk>, batchSize: int, embed: BatchEmbedder)
    returns (r: Result<seq<Chunk>>, calls: seq<seq<string>>)
    modifies chunks
    ensures chunks.Length == 0 ==> r == Success([]) && calls == []
    ensures chunks.Length > 0 && batchSize == 0 ==>
              r == Failure("range() arg 3 must not be zero") && calls == [] && chunks[..] == old(chunks[..])
    ensures chunks.Length > 0 && batchSize < 0 ==>
              r == Success(old(chunks[..])) && calls == [] && chunks[..] == old(chunks[..])
    ensures batchSize > 0 ==>
              chunks[..] == Embedded(old(chunks[..]), batchSize, embed) &&
              r == Success(chunks[..]) && calls == Calls(old(chunks[..]), batchSize)
    ensures r == Generated(old(chunks[..]), batchSize, embed)
  {
    calls := [];
    if chunks.Length == 0 {
      return Success([]), calls;
    }
    if batchSize == 0 {
      return Failure("range() arg 3 must not be zero"), calls;
    }
    if batchSize < 0 {
      return Success(chunks[..]), calls;
    }
    calls := EmbedAllBatches(chunks, batchSize, embed);
    r := Success(chunks[..]);
  }

  /** The batch loop of generate_embeddings. */
  method EmbedAllBatches(chunks: array<Chunk>, batchSize: nat, embed: BatchEmbedder)
    returns (calls: seq<seq<string>>)
    requires batchSize > 0
    modifies chunks
    ensures chunks[..] == Embedded(old(chunks[..]), batchSize, embed)
    ensures calls == Calls(old(chunks[..]), batchSize)
  {
    calls := [];
    ghost var cs := chunks[..];
    var total := chunks.Length;
    var i: nat := 0;
    while i < total
      invariant i < total ==> BatchStart(i, batchSize) == i
      invariant chunks[..] == EmbeddedBefore(cs, batchSize, embed, i)
      invariant CallsSoFar(cs, batchSize, i, calls)
      decreases total - i
    {
      calls := EmbedNextBatch(chunks, cs, batchSize, embed, i, calls);
      i := i + batchSize;
    }
    AllBatchesDone(cs, batchSize, embed, i);
  }

  /** One pass of the loop body: embed the batch starting at `i` and add
   *  its call. */
  method EmbedNextBatch(chunks: array<Chunk>, ghost cs: seq<Chunk>, batchSize: nat, embed: BatchEmbedder,
                        i: nat, calls: seq<seq<string>>) returns (calls': seq<seq<string>>)
    requires batchSize > 0 && i < chunks.Length && BatchStart(i, batchSize) == i
    requires chunks[..] == EmbeddedBefore(cs, batchSize, embed, i)
    requires CallsSoFar(cs, batchSize, i, calls)
    modifies chunks
    ensures chunks[..] == EmbeddedBefore(cs, batchSize, embed, i + batchSize)
    ensures CallsSoFar(cs, batchSize, i + batchSize, calls')
    ensures i + batchSize < chunks.Length ==> BatchStart(i + batchSize, batchSize) == i + batchSize
  {
    var end := Min(i + batchSize, chunks.Length);
    BatchStep(cs, batchSize, embed, i);
    var texts := EmbedBatch(chunks, i, end, embed);
    CallsStep(cs, batchSize, i, calls, texts);
    calls' := calls + [texts];
  }

  /** The chunks once every batch that starts before `i` came back: the
   *  batch loop's state after the batches before `i`. */
  ghost function EmbeddedBefore(cs: seq<Chunk>, size: nat, embed: BatchEmbedder, i: nat): (r: seq<Chunk>)
    requires size > 0
    ensures |r| == |cs|
  {
    seq(|cs|, k requires 0 <= k < |cs| => if k < i then EmbeddedAt(cs, size, embed, k) else cs[k])
  }

  /** One pass of the loop body sends the batch's own texts and takes the
   *  chunks to the state after the next batch. */
  lemma BatchStep(cs: seq<Chunk>, size: nat, embed: BatchEmbedder, i: nat)
    requires size > 0 && i < |cs| && BatchStart(i, size) == i
    ensures var before := EmbeddedBefore(cs, size, embed, i);
            var end := Min(i + size, |cs|);
            Texts(before[i..end]) == Texts(cs[i..end]) &&
            Written(before, i, end, Reply(embed, Texts(cs[i..end]))) == EmbeddedBefore(cs, size, embed, i + size)
  {
    var before := EmbeddedBefore(cs, size, embed, i);
    var end := Min(i + size, |cs|);
    assert before[i..end] == cs[i..end];
    var after := Written(before, i, end, Reply(embed, Texts(cs[i..end])));
    var next := EmbeddedBefore(cs, size, embed, i + size);
    forall k | 0 <= k < |cs|
      ensures after[k] == next[k]
    {
      if i <= k < end {
        assert after[k] == Answer(cs[k], Reply(embed, Texts(cs[i..end])), k - i);
        assert next[k] == EmbeddedAt(cs, size, embed, k);
        SameBatch(i, k, size);
        EmbeddedInBatch(cs, size, embed, k, i);
      } else {
        assert after[k] == before[k];
      }
    }
  }

  /** `calls` holds the calls of the batches before `i`. */
  ghost predicate CallsSoFar(cs: seq<Chunk>, size: nat, i: nat, calls: seq<seq<string>>)
    requires size > 0
  {
    calls + CallsFrom(cs, size, i) == Calls(cs, size)
  }

  /** One pass of the loop body adds the call of batch `i`. */
  lemma CallsStep(cs: seq<Chunk>, size: nat, i: nat, calls: seq<seq<string>>, t: seq<string>)
    requires size > 0 && i < |cs| && BatchStart(i, size) == i
    requires CallsSoFar(cs, size, i, calls)
    requires t == Texts(cs[i..Min(i + size, |cs|)])
    ensures CallsSoFar(cs, size, i + size, calls + [t])
    ensures i + size < |cs| ==> BatchStart(i + size, size) == i + size
  {
    var rest := CallsFrom(cs, size, i + size);
    assert CallsFrom(cs, size, i) == [t] + rest;
    assert (calls + [t]) + rest == calls + ([t] + rest);
    if i + size < |cs| {
      NextBatchStart(i, size);
    }
  }

  /** Past the end of the list every chunk is final. */
  lemma AllBatchesDone(cs: seq<Chunk>, size: nat, embed: BatchEmbedder, i: nat)
    requires size > 0 && i >= |cs|
    ensures EmbeddedBefore(cs, size, embed, i) == Embedded(cs, size, embed)
  {
    var done := EmbeddedBefore(cs, size, embed, i);
    forall k | 0 <= k < |cs|
      ensures done[k] == Embedded(cs, size, embed)[k]
    {
    }
  }

  /** One pass of the loop body (the try block): send the batch's texts
   *  and write the answer into chunks i .. end-1. */
  method EmbedBatch(chunks: array<Chunk>, i: nat, end: nat, embed: BatchEmbedder) returns (texts: seq<string>)
    requires i < end <= chunks.Length
    modifies chunks
    ensures texts == Texts(old(chunks[..])[i..end])
    ensures chunks[..] == Written(old(chunks[..]), i, end, Reply(embed, texts))
  {
    ghost var before := chunks[..];
    var batch := chunks[i..end];
    assert batch == before[i..end];
    texts := Texts(batch);
    var res := Reply(embed, texts);
    if res.Success? {
      WriteVectors(chunks, i, end, res);
    } else {
      WriteError(chunks, i, end, res);
    }
    ghost var written := Written(before, i, end, res);
    assert forall k :: 0 <= k < chunks.Length ==> chunks[..][k] == written[k];
  }

  /** The chunks once the answer `res` for the batch i .. end-1 is written
   *  into them. */
  function Written(before: seq<Chunk>, i: nat, end: nat, res: Result<seq<Embedding>>): (r: seq<Chunk>)
    ensures |r| == |before|
  {
    seq(|before|, k requires 0 <= k < |before| => if i <= k < end then Answer(before[k], res, k - i) else before[k])
  }

  lemma EmbeddedInBatch(cs: seq<Chunk>, size: nat, embed: BatchEmbedder, k: nat, s: nat)
    requires size > 0 && k < |cs| && BatchStart(k, size) == s
    ensures EmbeddedAt(cs, size, embed, k) == Answer(cs[k], Reply(embed, Texts(cs[s..Min(s + size, |cs|)])), k - s)
  {
  }

  /** Every chunk from a batch start up to the next one is in that batch. */
  lemma {:induction false} SameBatch(s: nat, k: nat, size: nat)
    requires size > 0 && BatchStart(s, size) == s && s <= k < s + size
    ensures BatchStart(k, size) == s
    decreases k
  {
    if s >= size {
      SameBatch(s - size, k - size, size);
    }
  }

  /** The next batch starts `size` chunks further on. */
  lemma NextBatchStart(s: nat, size: nat)
    requires size > 0 && BatchStart(s, size) == s
    ensures BatchStart(s + size, size) == s + size
  {
  }

  /** The zip loop of a batch that came back. */
  method WriteVectors(chunks: array<Chunk>, i: nat, end: nat, res: Result<seq<Embedding>>)
    requires i < end <= chunks.Length && res.Success?
    modifies chunks
    ensures forall k :: 0 <= k < chunks.Length ==>
              chunks[k] == if i <= k < end then Answer(old(chunks[k]), res, k - i) else old(chunks[k])
  {
    var vs := res.value;
    var j := 0;
    while j < end - i && j < |vs|
      invariant 0 <= j <= end - i && j <= |vs|
      invariant forall k :: 0 <= k < chunks.Length ==>
                  chunks[k] == if i <= k < i + j then Answer(old(chunks[k]), res, k - i) else old(chunks[k])
    {
      chunks[i + j] := chunks[i + j].(embedding := Some(vs[j]));
      j := j + 1;
    }
  }

  /** The loop that marks every chunk of a failed batch. */
  method WriteError(chunks: array<Chunk>, i: nat, end: nat, res: Result<seq<Embedding>>)
    requires i < end <= chunks.Length && res.Failure?
    modifies chunks
    ensures forall k :: 0 <= k < chunks.Length ==>
              chunks[k] == if i <= k < end then Answer(old(chunks[k]), res, k - i) else old(chunks[k])
  {
    var e := res.error;
    var j := 0;
    while j < end - i
      invariant 0 <= j <= end - i
      invariant forall k :: 0 <= k < chunks.Length ==>
                  chunks[k] == if i <= k < i + j then Answer(old(chunks[k]), res, k - i) else old(chunks[k])
    {
      chunks[i + j] := chunks[i + j].(embedding := None, error := Some(e));
      j := j + 1;
    }
  }

  /** The service is called ceil(n / size) times for n chunks: the least
   *  number of calls whose batches cover the list. */
  lemma {:induction false} CallsCountFrom(cs: seq<Chunk>, size: nat, start: nat)
    requires size > 0 && start <= |cs|
    ensures |CallsFrom(cs, size, start)| * size >= |cs| - start
    ensures |CallsFrom(cs, size, start)| == 0 || (|CallsFrom(cs, size, start)| - 1) * size < |cs| - start
    decreases |cs| - start
  {
    if start < |cs| {
      var c := |CallsFrom(cs, size, start + size)|;
      assert |CallsFrom(cs, size, start)| == c + 1;
      if start + size < |cs| {
        CallsCountFrom(cs, size, start + size);
      } else {
        assert c == 0;
      }
      MulSucc(c, size);
    }
  }

  lemma MulSucc(c: nat, size: nat)
    ensures (c + 1) * size == c * size + size
  {
  }

  lemma CallsCount(cs: seq<Chunk>, size: nat)
    requires size > 0
    ensures |Calls(cs, size)| * size >= |cs|
    ensures |Calls(cs, size)| == 0 || (|Calls(cs, size)| - 1) * size < |cs|
  {
    CallsCountFrom(cs, size, 0);
  }

  /** Twelve chunks in batches of five take three calls: 5, 5 and 2. */
  lemma TwelveChunksThreeCalls(cs: seq<Chunk>)
    requires |cs| == 12
    ensures |Calls(cs, 5)| == 3
    ensures |Calls(cs, 5)[2]| == 2
  {
    CallsCount(cs, 5);
    assert Calls(cs, 5) == [Texts(cs[0..5])] + CallsFrom(cs, 5, 5);
    assert CallsFrom(cs, 5, 5) == [Texts(cs[5..10])] + CallsFrom(cs, 5, 10);
    assert CallsFrom(cs, 5, 10)[0] == Texts(cs[10..12]);
  }

  /** A failed batch leaves every one of its chunks without a vector and
   *  with the service's error: only the chunk's own batch decides. */
  lemma FailedBatchMarksChunk(cs: seq<Chunk>, size: nat, embed: BatchEmbedder, k: nat)
    requires size > 0 && k < |cs|
    ensures var s := BatchStart(k, size);
            var res := Reply(embed, Texts(cs[s..Min(s + size, |cs|)]));
            res.Failure? ==>
              Embedded(cs, size, embed)[k].embedding.None? &&
              Embedded(cs, size, embed)[k].error == Some(res.error) &&
              Embedded(cs, size, embed)[k].chunkText == cs[k].chunkText
  {
    assert Embedded(cs, size, embed)[k] == EmbeddedAt(cs, size, embed, k);
  }

  /** A batch that came back gives each chunk the vector at its position
   *  in the batch and keeps its error; a chunk beyond the returned
   *  vectors is left as it was. */
  lemma ReturnedBatchZips(cs: seq<Chunk>, size: nat, embed: BatchEmbedder, k: nat)
    requires size > 0 && k < |cs|
    ensures var s := BatchStart(k, size);
            var res := Reply(embed, Texts(cs[s..Min(s + size, |cs|)]));
            res.Success? ==>
              (k - s < |res.value| ==>
                 Embedded(cs, size, embed)[k] == cs[k].(embedding := Some(res.value[k - s]))) &&
              (k - s >= |res.value| ==> Embedded(cs, size, embed)[k] == cs[k])
  {
  }

  /** generate_single_embedding: the first vector of a one-text call; an
   *  empty answer raises IndexError. */
  function GenerateSingleEmbedding(text: string, embed: BatchEmbedder): (r: Result<Embedding>)
    ensures r.Success? <==> embed([text]).Success? && embed([text]).value != []
    ensures r.Success? ==> r.value == embed([text]).value[0]
    ensures embed([text]).Failure? ==> r == Failure(embed([text]).error)
  {
    match embed([text])
    case Failure(e) => Failure(e)
    case Success(vs) => if vs == [] then Failure("list index out of range") else Success(vs[0])
  }
}
