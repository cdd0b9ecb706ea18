// The PostgreSQL vector store of the ingestion pipeline, modelled as two
// tables: `documents` (url unique, id assigned on insert) and
// `embeddings` (one row per stored chunk, pointing at its document).

module VectorStore {
  import opened Records

  /** The width of the `embedding vector(1536)` column: a vector of any
   *  other length is refused by the database. */
  const EmbeddingDimension: nat := 1536

  datatype DocumentRow = DocumentRow(
    id: int, url: string, title: string, content: string, metadata: Metadata, contentHash: string)

  datatype EmbeddingRow = EmbeddingRow(
    documentId: int, chunkIndex: int, chunkText: string, embedding: Embedding, metadata: Metadata)

  /** Both tables and the next value the documents id sequence hands
   *  out. The SERIAL default is evaluated before the ON CONFLICT check, so
   *  an upsert of a stored url uses up a value too. */
  datatype Tables = Tables(documents: seq<DocumentRow>, embeddings: seq<EmbeddingRow>, nextId: int)

  /** What get_document_info returns for a stored document. */
  datatype DocumentInfo = DocumentInfo(id: int, contentHash: string)

  /** The row holding `url`, if any (the first one; urls are unique). */
  function FindUrl(docs: seq<DocumentRow>, url: string): (r: Option<nat>)
    ensures r.Some? ==> r.value < |docs| && docs[r.value].url == url &&
                        forall j :: 0 <= j < r.value ==> docs[j].url != url
    ensures r.None? <==> forall j :: 0 <= j < |docs| ==> docs[j].url != url
  {
    if docs == [] then None
    else if docs[0].url == url then Some(0)
    else match FindUrl(docs[1..], url)
      case None => None
      case Some(j) => Some(j + 1)
  }

  /** The UNIQUE constraint on documents.url. */
  predicate UniqueUrls(docs: seq<DocumentRow>) {
    forall i, j :: 0 <= i < j < |docs| ==> docs[i].url != docs[j].url
  }

  /** Ids are distinct and below the next value of the sequence. */
  predicate FreshIds(t: Tables) {
    (forall i :: 0 <= i < |t.documents| ==> t.documents[i].id < t.nextId) &&
    (forall i, j :: 0 <= i < j < |t.documents| ==> t.documents[i].id != t.documents[j].id)
  }

  predicate WellFormed(t: Tables) {
    UniqueUrls(t.documents) && FreshIds(t)
  }

  /** get_document_id. */
  function DocumentId(t: Tables, url: string): (r: Option<int>)
    ensures r.None? <==> forall j :: 0 <= j < |t.documents| ==> t.documents[j].url != url
    ensures r.Some? ==> exists j :: 0 <= j < |t.documents| && t.documents[j].url == url && t.documents[j].id == r.value
  {
    match FindUrl(t.documents, url)
    case None => None
    case Some(i) => Some(t.documents[i].id)
  }

  /** get_document_info. */
  function Info(t: Tables, url: string): (r: Option<DocumentInfo>)
    ensures r.None? <==> forall j :: 0 <= j < |t.documents| ==> t.documents[j].url != url
    ensures r.Some? ==> DocumentId(t, url) == Some(r.value.id)
  {
    match FindUrl(t.documents, url)
    case None => None
    case Some(i) => Some(DocumentInfo(t.documents[i].id, t.documents[i].contentHash))
  }

  /** insert_document: INSERT ... ON CONFLICT (url) DO UPDATE ... RETURNING
   *  id. The new table and the returned id. */
  function Upserted(t: Tables, url: string, title: string, content: string, metadata: Metadata,
                    contentHash: string): (Tables, int)
  {
    match FindUrl(t.documents, url)
    case Some(i) =>
      var row := DocumentRow(t.documents[i].id, url, title, content, metadata, contentHash);
      (t.(documents := t.documents[i := row], nextId := t.nextId + 1), t.documents[i].id)
    case None =>
      var row := DocumentRow(t.nextId, url, title, content, metadata, contentHash);
      (t.(documents := t.documents + [row], nextId := t.nextId + 1), t.nextId)
  }

  /** The embeddings that survive DELETE FROM embeddings WHERE
   *  document_id = id, in their order. */
  function Without(es: seq<EmbeddingRow>, id: int): (r: seq<EmbeddingRow>)
    ensures |r| <= |es|
    ensures forall k :: 0 <= k < |r| ==> r[k].documentId != id && r[k] in es
    ensures forall e :: e in es && e.documentId != id ==> e in r
  {
    if es == [] then []
    else (if es[0].documentId == id then [] else [es[0]]) + Without(es[1..], id)
  }

  /** A chunk is stored only if it has an embedding. */
  function ValidChunks(cs: seq<Chunk>): (r: seq<Chunk>)
    ensures |r| <= |cs|
    ensures forall k :: 0 <= k < |r| ==> r[k].embedding.Some? && r[k] in cs
    ensures forall c :: c in cs && c.embedding.Some? ==> c in r
  {
    if cs == [] then []
    else (if cs[0].embedding.Some? then [cs[0]] else []) + ValidChunks(cs[1..])
  }

  /** Whether the embeddings INSERT of a chunk raises: a vector of the
   *  wrong width, or a database failure `fails` stands for. */
  predicate Refused(c: Chunk, fails: Chunk -> bool)
    requires c.embedding.Some?
  {
    |c.embedding.value| != EmbeddingDimension || fails(c)
  }

  /** One pass of the insert_embeddings loop: find or create the chunk's
   *  document (committed at once), then insert the embedding row, which
   *  is rolled back when it raises. Returns whether a row was added. */
  function InsertChunk(t: Tables, c: Chunk, fails: Chunk -> bool): (Tables, bool)
    requires c.embedding.Some?
  {
    var (t1, id) :=
      match DocumentId(t, c.url)
      case Some(id) => (t, id)
      case None => Upserted(t, c.url, c.title, c.chunkText, c.metadata, "");
    if Refused(c, fails) then (t1, false)
    else (t1.(embeddings := t1.embeddings + [EmbeddingRow(id, c.chunkIndex, c.chunkText, c.embedding.value, c.metadata)]), true)
  }

  /** The loop over the valid chunks: the final tables and the count. */
  function InsertAll(t: Tables, cs: seq<Chunk>, fails: Chunk -> bool): (Tables, nat)
    requires forall k :: 0 <= k < |cs| ==> cs[k].embedding.Some?
    decreases |cs|
  {
    if cs == [] then (t, 0)
    else
      var (t1, ok) := InsertChunk(t, cs[0], fails);
      var (t2, n) := InsertAll(t1, cs[1..], fails);
      (t2, n + if ok then 1 else 0)
  }

  /** insert_embeddings. */
  function Inserted(t: Tables, chunks: seq<Chunk>, fails: Chunk -> bool): (Tables, nat) {
    if chunks == [] then (t, 0)
    else
      var valid := ValidChunks(chunks);
      if valid == [] then (t, 0) else InsertAll(t, valid, fails)
  }

  class Store {
    var documents: seq<DocumentRow>
    var embeddings: seq<EmbeddingRow>
    var nextId: int

    function State(): Tables
      reads this
    {
      Tables(documents, embeddings, nextId)
    }

    /** Freshly created schema: both tables empty, SERIAL starts at 1. */
    constructor()
      ensures State() == Tables([], [], 1) && WellFormed(State())
    {
      documents := [];
      embeddings := [];
      nextId := 1;
    }

    method GetDocumentId(url: string) returns (id: Option<int>)
      ensures id == DocumentId(State(), url)
    {
      id := DocumentId(State(), url);
    }

    method GetDocumentInfo(url: string) returns (info: Option<DocumentInfo>)
      ensures info == Info(State(), url)
    {
      info := Info(State(), url);
    }

    method InsertDocument(url: string, title: string, content: string, metadata: Metadata,
                          contentHash: string) returns (id: int)
      modifies this
      ensures (State(), id) == Upserted(old(State()), url, title, content, metadata, contentHash)
    {
      var r := Upserted(State(), url, title, content, metadata, contentHash);
      documents, nextId := r.0.documents, r.0.nextId;
      id := r.1;
    }

    method DeleteEmbeddingsForDocument(documentId: int)
      modifies this
      ensures State() == old(State()).(embeddings := Without(old(embeddings), documentId))
    {
      embeddings := Without(embeddings, documentId);
    }

    method InsertEmbeddings(chunks: seq<Chunk>, fails: Chunk -> bool) returns (count: nat)
      modifies this
      ensures (State(), count) == Inserted(old(State()), chunks, fails)
    {
      if chunks == [] {
        return 0;
      }
      var valid := ValidChunks(chunks);
      if valid == [] {
        return 0;
      }
      count := InsertValid(valid, fails);
    }

    /** The loop of insert_embeddings over the chunks with an embedding. */
    method InsertValid(valid: seq<Chunk>, fails: Chunk -> bool) returns (count: nat)
      requires forall k :: 0 <= k < |valid| ==> valid[k].embedding.Some?
      modifies this
      ensures (State(), count) == InsertAll(old(State()), valid, fails)
    {
      ghost var goal := InsertAll(State(), valid, fails);
      count := 0;
      var i := 0;
      while i < |valid|
        invariant 0 <= i <= |valid| && count <= goal.1
        invariant InsertAll(State(), valid[i..], fails) == (goal.0, goal.1 - count)
      {
        ghost var before := State();
        var ok := StoreChunk(valid[i], fails);
        InsertAllStep(before, valid, i, fails);
        if ok {
          count := count + 1;
        }
        i := i + 1;
      }
      assert valid[i..] == [];
    }

    /** One pass of the insert_embeddings loop (its try block). */
    method StoreChunk(chunk: Chunk, fails: Chunk -> bool) returns (ok: bool)
      requires chunk.embedding.Some?
      modifies this
      ensures (State(), ok) == InsertChunk(old(State()), chunk, fails)
    {
      var documentId := GetDocumentId(chunk.url);
      if documentId.None? {
        var newId := InsertDocument(chunk.url, chunk.title, chunk.chunkText, chunk.metadata, "");
        documentId := Some(newId);
      }
      ok := !Refused(chunk, fails);
      if ok {
        embeddings := embeddings + [EmbeddingRow(documentId.value, chunk.chunkIndex, chunk.chunkText,
                                                 chunk.embedding.value, chunk.metadata)];
      }
    }
  }

  /** The loop over valid[i..] is one chunk followed by the loop over
   *  valid[i+1..]. */
  lemma InsertAllStep(t: Tables, cs: seq<Chunk>, i: nat, fails: Chunk -> bool)
    requires i < |cs| && forall k :: 0 <= k < |cs| ==> cs[k].embedding.Some?
    ensures var (t1, ok) := InsertChunk(t, cs[i], fails);
            var (t2, n) := InsertAll(t1, cs[i + 1..], fails);
            InsertAll(t, cs[i..], fails) == (t2, n + if ok then 1 else 0)
  {
    assert cs[i..][1..] == cs[i + 1..];
  }

  /** An upsert keeps the id of a stored url and overwrites its title,
   *  content, metadata and hash; a new url gets the next id. Either way
   *  the sequence advances by one and a lookup afterwards finds exactly
   *  the row just written. */
  lemma UpsertLookup(t: Tables, url: string, title: string, content: string, metadata: Metadata, hash: string)
    ensures var (t1, id) := Upserted(t, url, title, content, metadata, hash);
            (DocumentId(t, url).Some? ==> id == DocumentId(t, url).value && |t1.documents| == |t.documents|) &&
            (DocumentId(t, url).None? ==> id == t.nextId && |t1.documents| == |t.documents| + 1) &&
            Info(t1, url) == Some(DocumentInfo(id, hash)) &&
            FindUrl(t1.documents, url).Some? &&
            t1.documents[FindUrl(t1.documents, url).value] == DocumentRow(id, url, title, content, metadata, hash) &&
            t1.nextId == t.nextId + 1 &&
            t1.embeddings == t.embeddings
  {
    var (t1, id) := Upserted(t, url, title, content, metadata, hash);
    match FindUrl(t.documents, url)
    case Some(i) =>
      assert t1.documents[i].url == url;
      assert forall j :: 0 <= j < i ==> t1.documents[j] == t.documents[j];
    case None =>
      assert t1.documents[|t.documents|].url == url;
      assert forall j :: 0 <= j < |t.documents| ==> t1.documents[j] == t.documents[j];
  }

  /** An upsert leaves every other url's row untouched. */
  lemma UpsertOtherUrls(t: Tables, url: string, title: string, content: string, metadata: Metadata,
                        hash: string, other: string)
    requires other != url
    ensures Info(Upserted(t, url, title, content, metadata, hash).0, other) == Info(t, other)
  {
    var t1 := Upserted(t, url, title, content, metadata, hash).0;
    var r := FindUrl(t.documents, other);
    match FindUrl(t.documents, url)
    case Some(i) =>
      FindUrlSameUrls(t.documents, t1.documents, other);
      if r.Some? {
        assert r.value != i;
        assert t1.documents[r.value] == t.documents[r.value];
      }
    case None =>
      var row := DocumentRow(t.nextId, url, title, content, metadata, hash);
      assert t1.documents == t.documents + [row];
      FindUrlAppend(t.documents, row, other);
      if r.Some? {
        assert t1.documents[r.value] == t.documents[r.value];
      }
  }

  /** FindUrl looks at the urls only. */
  lemma {:induction false} FindUrlSameUrls(a: seq<DocumentRow>, b: seq<DocumentRow>, url: string)
    requires |a| == |b| && forall j :: 0 <= j < |a| ==> a[j].url == b[j].url
    ensures FindUrl(a, url) == FindUrl(b, url)
  {
    if a != [] {
      FindUrlSameUrls(a[1..], b[1..], url);
    }
  }

  /** A row with another url added at the end changes no lookup. */
  lemma {:induction false} FindUrlAppend(a: seq<DocumentRow>, row: DocumentRow, url: string)
    requires row.url != url
    ensures FindUrl(a + [row], url) == FindUrl(a, url)
  {
    if a != [] {
      assert (a + [row])[1..] == a[1..] + [row];
      FindUrlAppend(a[1..], row, url);
    }
  }

  /** An upsert keeps urls unique and ids fresh. */
  lemma UpsertWellFormed(t: Tables, url: string, title: string, content: string, metadata: Metadata, hash: string)
    requires WellFormed(t)
    ensures WellFormed(Upserted(t, url, title, content, metadata, hash).0)
  {
  }

  /** After the delete no embedding points at the document, every other
   *  embedding is still there, and the documents are untouched. */
  lemma DeleteRemovesExactly(es: seq<EmbeddingRow>, id: int, e: EmbeddingRow)
    ensures e in Without(es, id) <==> e in es && e.documentId != id
  {
  }

  /** A rejected chunk adds no embedding row, yet a document it created
   *  stays (insert_document committed before the failing INSERT). */
  lemma InsertChunkEffect(t: Tables, c: Chunk, fails: Chunk -> bool)
    requires c.embedding.Some?
    ensures var (t1, ok) := InsertChunk(t, c, fails);
            ok == !Refused(c, fails) &&
            (ok ==> |t1.embeddings| == |t.embeddings| + 1) &&
            (!ok ==> t1.embeddings == t.embeddings) &&
            t1.embeddings[..|t.embeddings|] == t.embeddings &&
            DocumentId(t1, c.url).Some?
  {
    var (t1, ok) := InsertChunk(t, c, fails);
    match DocumentId(t, c.url)
    case Some(_) =>
    case None =>
      UpsertLookup(t, c.url, c.title, c.chunkText, c.metadata, "");
  }

  /** insert_embeddings appends exactly `count` rows and never removes or
   *  changes one; `count` never exceeds the number of chunks with an
   *  embedding; every such chunk's url has a document afterwards. */
  lemma {:induction false} InsertAllEffect(t: Tables, cs: seq<Chunk>, fails: Chunk -> bool)
    requires forall k :: 0 <= k < |cs| ==> cs[k].embedding.Some?
    ensures var (t1, n) := InsertAll(t, cs, fails);
            n <= |cs| && |t1.embeddings| == |t.embeddings| + n &&
            t1.embeddings[..|t.embeddings|] == t.embeddings &&
            (forall k :: 0 <= k < |cs| ==> DocumentId(t1, cs[k].url).Some?) &&
            (forall u :: DocumentId(t, u).Some? ==> DocumentId(t1, u).Some?)
    decreases |cs|
  {
    if cs != [] {
      var (t1, ok) := InsertChunk(t, cs[0], fails);
      InsertChunkEffect(t, cs[0], fails);
      InsertChunkKeepsDocuments(t, cs[0], fails);
      InsertAllEffect(t1, cs[1..], fails);
      var (t2, n) := InsertAll(t1, cs[1..], fails);
      assert t2.embeddings[..|t1.embeddings|] == t1.embeddings;
      assert t2.embeddings[..|t.embeddings|] == t1.embeddings[..|t.embeddings|];
      forall k | 0 <= k < |cs|
        ensures DocumentId(t2, cs[k].url).Some?
      {
        if k > 0 {
          assert cs[k] == cs[1..][k - 1];
        }
      }
    }
  }

  /** A stored url stays stored: the loop only ever adds or updates
   *  document rows. */
  lemma InsertChunkKeepsDocuments(t: Tables, c: Chunk, fails: Chunk -> bool)
    requires c.embedding.Some?
    ensures forall u :: DocumentId(t, u).Some? ==> DocumentId(InsertChunk(t, c, fails).0, u).Some?
  {
    forall u | DocumentId(t, u).Some?
      ensures DocumentId(InsertChunk(t, c, fails).0, u).Some?
    {
      if DocumentId(t, c.url).None? {
        if u != c.url {
          UpsertOtherUrls(t, c.url, c.title, c.chunkText, c.metadata, "", u);
        }
      }
    }
  }

  /** insert_embeddings returns 0 and changes nothing for an empty list or
   *  a list without embeddings; otherwise it returns at most the number
   *  of chunks with an embedding and only appends embedding rows. */
  lemma InsertedCount(t: Tables, chunks: seq<Chunk>, fails: Chunk -> bool)
    ensures var (t1, n) := Inserted(t, chunks, fails);
            (chunks == [] || forall k :: 0 <= k < |chunks| ==> chunks[k].embedding.None?) ==> t1 == t && n == 0
    ensures var (t1, n) := Inserted(t, chunks, fails);
            n <= |ValidChunks(chunks)| && |t1.embeddings| == |t.embeddings| + n &&
            t1.embeddings[..|t.embeddings|] == t.embeddings
  {
    var valid := ValidChunks(chunks);
    if chunks != [] && valid != [] {
      InsertAllEffect(t, valid, fails);
    }
    if forall k :: 0 <= k < |chunks| ==> chunks[k].embedding.None? {
      if valid != [] {
        assert valid[0] in chunks;
      }
    }
  }

  /** A chunk whose url has no document creates one holding the chunk's
   *  title, text and metadata with an empty content hash. */
  lemma MissingDocumentCreated(t: Tables, c: Chunk, fails: Chunk -> bool)
    requires c.embedding.Some? && DocumentId(t, c.url).None?
    ensures Info(InsertChunk(t, c, fails).0, c.url) == Some(DocumentInfo(t.nextId, ""))
  {
    UpsertLookup(t, c.url, c.title, c.chunkText, c.metadata, "");
  }

  /** Chunks of a document that is already stored never touch the
   *  documents table: each finds its document by url. */
  lemma {:induction false} InsertAllStoredUrl(t: Tables, cs: seq<Chunk>, url: string, fails: Chunk -> bool)
    requires forall k :: 0 <= k < |cs| ==> cs[k].embedding.Some? && cs[k].url == url
    requires DocumentId(t, url).Some?
    ensures InsertAll(t, cs, fails).0.documents == t.documents
    ensures InsertAll(t, cs, fails).0.nextId == t.nextId
    decreases |cs|
  {
    if cs != [] {
      var t1 := InsertChunk(t, cs[0], fails).0;
      assert t1.documents == t.documents && t1.nextId == t.nextId;
      assert DocumentId(t1, url) == DocumentId(t, url);
      InsertAllStoredUrl(t1, cs[1..], url, fails);
    }
  }

  lemma InsertedStoredUrl(t: Tables, chunks: seq<Chunk>, url: string, fails: Chunk -> bool)
    requires forall k :: 0 <= k < |chunks| ==> chunks[k].url == url
    requires DocumentId(t, url).Some?
    ensures Inserted(t, chunks, fails).0.documents == t.documents
    ensures Inserted(t, chunks, fails).0.nextId == t.nextId
  {
    var valid := ValidChunks(chunks);
    if chunks != [] && valid != [] {
      forall k | 0 <= k < |valid|
        ensures valid[k].embedding.Some? && valid[k].url == url
      {
        assert valid[k] in chunks;
      }
      InsertAllStoredUrl(t, valid, url, fails);
    }
  }
}
