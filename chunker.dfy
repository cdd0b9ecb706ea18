// The document chunker of the ingestion pipeline: a document's content
// is cut into pieces by a text splitter and every piece becomes a chunk
// dictionary carrying the document's url, title and metadata plus three
// chunk-specific metadata entries.

module Chunker {
  import opened Records
  import opened PyText

  /** RecursiveCharacterTextSplitter.split_text with the configured size,
   *  overlap and separators; it may raise. */
  type Splitter = string -> Result<seq<string>>

  /** A document is skipped when its content is missing, empty or made
   *  of whitespace only. */
  predicate Blank(content: Option<string>) {
    content.None? || Strip(content.value) == ""
  }

  /** The document's metadata with the chunk's position, the number of
   *  pieces and the piece's length written over any entries of the same
   *  name; every other entry is kept. */
  function ChunkMetadata(base: Metadata, index: nat, total: nat, size: nat): (m: Metadata)
    ensures m.Keys == base.Keys + {"chunk_index", "total_chunks", "chunk_size"}
    ensures m["chunk_index"] == JInt(index)
    ensures m["total_chunks"] == JInt(total)
    ensures m["chunk_size"] == JInt(size)
    ensures forall key :: key in base && key !in {"chunk_index", "total_chunks", "chunk_size"} ==>
              m[key] == base[key]
  {
    base["chunk_index" := JInt(index)]["total_chunks" := JInt(total)]["chunk_size" := JInt(size)]
  }

  /** The chunk built for piece `index` of a document split into `pieces`. */
  function ChunkOf(doc: SourceDoc, pieces: seq<string>, index: nat): Chunk
    requires index < |pieces|
  {
    Chunk(pieces[index], index, doc.url.GetOr(""), doc.title.GetOr(""),
          ChunkMetadata(doc.metadata.GetOr(map[]), index, |pieces|, |pieces[index]|),
          None, None)
  }

  /** What chunk_document returns (or raises) for one document. */
  function Chunked(doc: SourceDoc, split: Splitter): Result<seq<Chunk>> {
    if Blank(doc.content) then Success([])
    else
      match split(doc.content.value)
      case Failure(e) => Failure(e)
      case Success(pieces) => Success(seq(|pieces|, k requires 0 <= k < |pieces| => ChunkOf(doc, pieces, k)))
  }

  /** chunk_document: one chunk per piece, in the splitter's order,
   *  numbered from 0. */
  method ChunkDocument(doc: SourceDoc, split: Splitter) returns (r: Result<seq<Chunk>>)
    ensures Blank(doc.content) ==> r == Success([])
    ensures !Blank(doc.content) && split(doc.content.value).Failure? ==>
              r == Failure(split(doc.content.value).error)
    ensures !Blank(doc.content) && split(doc.content.value).Success? ==>
              var pieces := split(doc.content.value).value;
              r.Success? && |r.value| == |pieces| &&
              forall k :: 0 <= k < |pieces| ==>
                r.value[k].chunkText == pieces[k] && r.value[k].chunkIndex == k &&
                r.value[k].url == doc.url.GetOr("") && r.value[k].title == doc.title.GetOr("") &&
                r.value[k].metadata == ChunkMetadata(doc.metadata.GetOr(map[]), k, |pieces|, |pieces[k]|) &&
                r.value[k].embedding.None? && r.value[k].error.None?
    ensures r == Chunked(doc, split)
  {
    if doc.content.None? || Strip(doc.content.value) == "" {
      return Success([]);
    }
    var split_ := split(doc.content.value);
    if split_.Failure? {
      return Failure(split_.error);
    }
    var pieces := split_.value;
    var chunks: seq<Chunk> := [];
    var idx := 0;
    while idx < |pieces|
      invariant 0 <= idx <= |pieces|
      invariant |chunks| == idx
      invariant forall k :: 0 <= k < idx ==> chunks[k] == ChunkOf(doc, pieces, k)
    {
      var meta := ChunkMetadata(doc.metadata.GetOr(map[]), idx, |pieces|, |pieces[idx]|);
      chunks := chunks + [Chunk(pieces[idx], idx, doc.url.GetOr(""), doc.title.GetOr(""), meta, None, None)];
      idx := idx + 1;
    }
    assert chunks == seq(|pieces|, k requires 0 <= k < |pieces| => ChunkOf(doc, pieces, k));
    r := Success(chunks);
  }

  /** What chunk_documents returns: the chunks of every document in
   *  input order, a document whose chunking raised contributing none. */
  function AllChunks(docs: seq<SourceDoc>, split: Splitter): seq<Chunk> {
    if docs == [] then []
    else
      var last := Chunked(docs[|docs| - 1], split);
      AllChunks(docs[..|docs| - 1], split) + (if last.Success? then last.value else [])
  }

  /** Chunking a list of documents is chunking each part and joining the
   *  results, so one failing document never hides another's chunks. */
  lemma {:induction false} AllChunksAppend(a: seq<SourceDoc>, b: seq<SourceDoc>, split: Splitter)
    ensures AllChunks(a + b, split) == AllChunks(a, split) + AllChunks(b, split)
    decreases |b|
  {
    if b == [] {
      assert a + b == a;
    } else {
      var n := |b| - 1;
      assert (a + b)[..|a + b| - 1] == a + b[..n];
      assert (a + b)[|a + b| - 1] == b[n];
      AllChunksAppend(a, b[..n], split);
    }
  }

  /** A document whose chunking raises adds nothing; every other document
   *  adds exactly its own chunks. */
  lemma SkipsFailedDocument(docs: seq<SourceDoc>, d: SourceDoc, split: Splitter)
    ensures Chunked(d, split).Failure? ==> AllChunks(docs + [d], split) == AllChunks(docs, split)
    ensures Chunked(d, split).Success? ==>
              AllChunks(docs + [d], split) == AllChunks(docs, split) + Chunked(d, split).value
  {
    assert (docs + [d])[..|docs + [d]| - 1] == docs;
  }

  /** chunk_documents. */
  method ChunkDocuments(docs: seq<SourceDoc>, split: Splitter) returns (all: seq<Chunk>)
    ensures all == AllChunks(docs, split)
  {
    all := [];
    var i := 0;
    while i < |docs|
      invariant 0 <= i <= |docs|
      invariant all == AllChunks(docs[..i], split)
    {
      var r := ChunkDocument(docs[i], split);
      assert docs[..i + 1] == docs[..i] + [docs[i]];
      SkipsFailedDocument(docs[..i], docs[i], split);
      if r.Success? {
        all := all + r.value;
      }
      i := i + 1;
    }
    assert docs[..i] == docs;
  }

  /** Every chunk of a document carries the document's url and title. */
  lemma ChunksCarryDocument(doc: SourceDoc, split: Splitter)
    ensures Chunked(doc, split).Success? ==>
              forall k :: 0 <= k < |Chunked(doc, split).value| ==>
                Chunked(doc, split).value[k].url == doc.url.GetOr("") &&
                Chunked(doc, split).value[k].title == doc.title.GetOr("")
  {
  }
}
