// The ingestion driver: for every loaded document decide whether it is
// unchanged, then chunk it, embed the chunks, upsert the document, drop
// its old embeddings when they are stale and store the new ones.

module Embedder {
  import opened Records
  import opened Chunker
  import opened EmbeddingGenerator
  import opened VectorStore

  /** What process_documents did with one document. `counted` is the
   *  number of chunks already added to the running total when an
   *  exception was caught. */
  datatype Outcome =
    | Unchanged
    | NoChunks
    | Raised(counted: nat, message: string)
    | Stored(documentId: int, chunks: nat, inserted: nat, deleted: bool)

  /** The totals reported at the end of a run. */
  datatype Totals = Totals(chunks: nat, embeddings: nat)

  /** document.get("url", "unknown"). */
  function UrlOf(doc: SourceDoc): string {
    doc.url.GetOr("unknown")
  }

  /** document.get("content_hash", ""). */
  function HashOf(doc: SourceDoc): string {
    doc.contentHash.GetOr("")
  }

  /** The stored record looked up before the try block; documents
   *  without a url are never looked up. */
  function Existing(t: Tables, doc: SourceDoc): Option<DocumentInfo> {
    if UrlOf(doc) != "unknown" then Info(t, UrlOf(doc)) else None
  }

  /** The stored record has the document's hash and no reprocessing was
   *  asked for. */
  predicate Unchanged?(existing: Option<DocumentInfo>, force: bool, hash: string) {
    existing.Some? && !force && existing.value.contentHash == hash
  }

  /** The old embeddings are dropped when reprocessing is forced or the
   *  stored record has another hash. */
  predicate Stale(existing: Option<DocumentInfo>, force: bool, hash: string) {
    force || (existing.Some? && existing.value.contentHash != hash)
  }

  /** The writes for a document that got this far: upsert the document,
   *  delete its embeddings when stale, insert the new ones. */
  function Written(t: Tables, doc: SourceDoc, url: string, stale: bool, chunks: seq<Chunk>,
                   fails: Chunk -> bool): (Tables, int, nat)
  {
    var (t1, id) := Upserted(t, url, doc.title.GetOr(""), doc.content.GetOr(""),
                             doc.metadata.GetOr(map[]), HashOf(doc));
    var t2 := if stale then t1.(embeddings := Without(t1.embeddings, id)) else t1;
    var (t3, n) := Inserted(t2, chunks, fails);
    (t3, id, n)
  }

  /** The body of the loop for one document, from the try block on. */
  function Processed(t: Tables, doc: SourceDoc, existing: Option<DocumentInfo>, force: bool,
                     split: Splitter, batchSize: int, embed: BatchEmbedder, fails: Chunk -> bool)
    : (Tables, Outcome)
  {
    if Unchanged?(existing, force, HashOf(doc)) then (t, Unchanged)
    else match Chunked(doc, split)
      case Failure(e) => (t, Raised(0, e))
      case Success(cs) =>
        if cs == [] then (t, NoChunks)
        else match Generated(cs, batchSize, embed)
          case Failure(e) => (t, Raised(|cs|, e))
          case Success(ecs) =>
            if doc.url.None? then (t, Raised(|cs|, "'url'"))
            else
              var stale := Stale(existing, force, HashOf(doc));
              var (t3, id, n) := Written(t, doc, doc.url.value, stale, ecs, fails);
              (t3, Stored(id, |cs|, n, stale))
  }

  function Add(totals: Totals, o: Outcome): Totals {
    match o
    case Raised(c, _) => Totals(totals.chunks + c, totals.embeddings)
    case Stored(_, c, n, _) => Totals(totals.chunks + c, totals.embeddings + n)
    case _ => totals
  }

  /** The exception a failing get_document_info raises for a url. */
  type Lookup = string -> Option<string>

  function LookupError(lookup: Lookup, url: string): Option<string> {
    lookup(url)
  }

  /** process_documents over a list: the final tables, the totals, and the
   *  error that ended the run early, if a lookup raised. */
  function Run(t: Tables, docs: seq<SourceDoc>, force: bool, split: Splitter, batchSize: int,
               embed: BatchEmbedder, fails: Chunk -> bool, lookup: Lookup): (Tables, Totals, Option<string>)
    decreases |docs|
  {
    if docs == [] then (t, Totals(0, 0), None)
    else
      var (t1, totals, err) := Run(t, docs[..|docs| - 1], force, split, batchSize, embed, fails, lookup);
      var doc := docs[|docs| - 1];
      if err.Some? then (t1, totals, err)
      else if UrlOf(doc) != "unknown" && LookupError(lookup, UrlOf(doc)).Some? then
        (t1, totals, LookupError(lookup, UrlOf(doc)))
      else
        var (t2, o) := Processed(t1, doc, Existing(t1, doc), force, split, batchSize, embed, fails);
        (t2, Add(totals, o), None)
  }

  /** One document, from the try block on; every exception it raises is
   *  caught and reported as Raised. */
  method ProcessDocument(store: Store, doc: SourceDoc, existing: Option<DocumentInfo>, force: bool,
                         split: Splitter, batchSize: int, embed: BatchEmbedder, fails: Chunk -> bool)
    returns (o: Outcome)
    modifies store
    ensures (store.State(), o) == Processed(old(store.State()), doc, existing, force, split, batchSize, embed, fails)
  {
    var hash := doc.contentHash.GetOr("");
    if existing.Some? && !force && existing.value.contentHash == hash {
      return Unchanged;
    }
    var chunked := ChunkDocument(doc, split);
    if chunked.Failure? {
      return Raised(0, chunked.error);
    }
    var chunks := chunked.value;
    if chunks == [] {
      return NoChunks;
    }
    var buffer := new Chunk[|chunks|](k requires 0 <= k < |chunks| => chunks[k]);
    assert buffer[..] == chunks;
    var generated, _ := GenerateEmbeddings(buffer, batchSize, embed);
    if generated.Failure? {
      return Raised(|chunks|, generated.error);
    }
    if doc.url.None? {
      return Raised(|chunks|, "'url'");
    }
    var documentId := store.InsertDocument(doc.url.value, doc.title.GetOr(""), doc.content.GetOr(""),
                                           doc.metadata.GetOr(map[]), hash);
    var stale := force || (existing.Some? && existing.value.contentHash != hash);
    if stale {
      store.DeleteEmbeddingsForDocument(documentId);
    }
    var inserted := store.InsertEmbeddings(generated.value, fails);
    o := Stored(documentId, |chunks|, inserted, stale);
  }

  /** process_documents. */
  method ProcessDocuments(store: Store, docs: seq<SourceDoc>, force: bool, split: Splitter, batchSize: int,
                          embed: BatchEmbedder, fails: Chunk -> bool, lookup: Lookup)
    returns (r: Result<Totals>)
    modifies store
    ensures var (t, totals, err) := Run(old(store.State()), docs, force, split, batchSize, embed, fails, lookup);
            store.State() == t && r == (if err.Some? then Failure(err.value) else Success(totals))
  {
    if docs == [] {
      return Success(Totals(0, 0));
    }
    ghost var t0 := store.State();
    var totals := Totals(0, 0);
    var i := 0;
    while i < |docs|
      invariant 0 <= i <= |docs|
      invariant Run(t0, docs[..i], force, split, batchSize, embed, fails, lookup) == (store.State(), totals, None)
    {
      var doc := docs[i];
      assert docs[..i + 1] == docs[..i] + [doc];
      var url := doc.url.GetOr("unknown");
      var existing: Option<DocumentInfo> := None;
      if url != "unknown" {
        var failure := LookupError(lookup, url);
        if failure.Some? {
          LookupErrorStops(t0, docs[..i], doc, force, split, batchSize, embed, fails, lookup);
          RunStopsAfterError(t0, docs[..i + 1], docs[i + 1..], force, split, batchSize, embed, fails, lookup);
          assert docs[..i + 1] + docs[i + 1..] == docs;
          return Failure(failure.value);
        }
        existing := store.GetDocumentInfo(url);
      }
      RunStep(t0, docs[..i], doc, force, split, batchSize, embed, fails, lookup, store.State(), totals);
      var o := ProcessDocument(store, doc, existing, force, split, batchSize, embed, fails);
      totals := Add(totals, o);
      i := i + 1;
    }
    assert docs[..i] == docs;
    r := Success(totals);
  }

  /** A document whose lookup does not raise is processed against the
   *  tables the earlier documents left. */
  lemma RunStep(t: Tables, a: seq<SourceDoc>, doc: SourceDoc, force: bool, split: Splitter, batchSize: int,
                embed: BatchEmbedder, fails: Chunk -> bool, lookup: Lookup, t1: Tables, totals: Totals)
    requires Run(t, a, force, split, batchSize, embed, fails, lookup) == (t1, totals, None)
    requires UrlOf(doc) == "unknown" || LookupError(lookup, UrlOf(doc)).None?
    ensures var p := Processed(t1, doc, Existing(t1, doc), force, split, batchSize, embed, fails);
            Run(t, a + [doc], force, split, batchSize, embed, fails, lookup) == (p.0, Add(totals, p.1), None)
  {
    assert (a + [doc])[..|a + [doc]| - 1] == a;
  }

  /** A document whose lookup raises ends the run with that error. */
  lemma LookupErrorStops(t: Tables, a: seq<SourceDoc>, doc: SourceDoc, force: bool, split: Splitter,
                         batchSize: int, embed: BatchEmbedder, fails: Chunk -> bool, lookup: Lookup)
    requires Run(t, a, force, split, batchSize, embed, fails, lookup).2.None?
    requires UrlOf(doc) != "unknown" && LookupError(lookup, UrlOf(doc)).Some?
    ensures Run(t, a + [doc], force, split, batchSize, embed, fails, lookup).2 == LookupError(lookup, UrlOf(doc))
  {
    assert (a + [doc])[..|a + [doc]| - 1] == a;
  }

  /** A lookup that raises ends the run: no later document is touched. */
  lemma {:induction false} RunStopsAfterError(t: Tables, a: seq<SourceDoc>, b: seq<SourceDoc>, force: bool,
                                              split: Splitter, batchSize: int, embed: BatchEmbedder,
                                              fails: Chunk -> bool, lookup: Lookup)
    requires Run(t, a, force, split, batchSize, embed, fails, lookup).2.Some?
    ensures Run(t, a + b, force, split, batchSize, embed, fails, lookup) ==
            Run(t, a, force, split, batchSize, embed, fails, lookup)
    decreases |b|
  {
    if b == [] {
      assert a + b == a;
    } else {
      var n := |b| - 1;
      assert (a + b)[..|a + b| - 1] == a + b[..n];
      RunStopsAfterError(t, a, b[..n], force, split, batchSize, embed, fails, lookup);
    }
  }

  /** An unforced run skips a document whose stored hash equals its own,
   *  with no write at all. */
  lemma UnchangedDocumentSkipped(t: Tables, doc: SourceDoc, split: Splitter, batchSize: int,
                                 embed: BatchEmbedder, fails: Chunk -> bool)
    requires UrlOf(doc) != "unknown" && Info(t, UrlOf(doc)).Some?
    requires Info(t, UrlOf(doc)).value.contentHash == HashOf(doc)
    ensures Processed(t, doc, Existing(t, doc), false, split, batchSize, embed, fails) == (t, Unchanged)
  {
  }

  /** Only a stored document writes: a document that was unchanged,
   *  produced no chunks or raised leaves both tables as they were. */
  lemma OnlyStoredWrites(t: Tables, doc: SourceDoc, existing: Option<DocumentInfo>, force: bool,
                         split: Splitter, batchSize: int, embed: BatchEmbedder, fails: Chunk -> bool)
    ensures var (t1, o) := Processed(t, doc, existing, force, split, batchSize, embed, fails);
            !o.Stored? ==> t1 == t
    ensures var (t1, o) := Processed(t, doc, existing, force, split, batchSize, embed, fails);
            o.NoChunks? <==> !Unchanged?(existing, force, HashOf(doc)) && Chunked(doc, split) == Success([])
  {
  }

  /** The writes for one document: the surviving old embeddings come
   *  first and the `n` new rows follow them (the delete runs before the
   *  insert, so it never removes the new rows), at most one row is added
   *  per chunk, and the document now carries its hash. */
  lemma WrittenEffect(t: Tables, doc: SourceDoc, url: string, stale: bool, chunks: seq<Chunk>,
                      fails: Chunk -> bool)
    requires forall k :: 0 <= k < |chunks| ==> chunks[k].url == url
    ensures var (t3, id, n) := Written(t, doc, url, stale, chunks, fails);
            var kept := if stale then Without(t.embeddings, id) else t.embeddings;
            |t3.embeddings| == |kept| + n && t3.embeddings[..|kept|] == kept && n <= |chunks| &&
            Info(t3, url) == Some(DocumentInfo(id, HashOf(doc)))
  {
    var (t1, id) := Upserted(t, url, doc.title.GetOr(""), doc.content.GetOr(""),
                             doc.metadata.GetOr(map[]), HashOf(doc));
    UpsertLookup(t, url, doc.title.GetOr(""), doc.content.GetOr(""), doc.metadata.GetOr(map[]), HashOf(doc));
    var t2 := if stale then t1.(embeddings := Without(t1.embeddings, id)) else t1;
    assert t2.documents == t1.documents;
    assert Info(t2, url) == Info(t1, url);
    InsertedCount(t2, chunks, fails);
    InsertedStoredUrl(t2, chunks, url, fails);
  }

  /** The chunks handed to the store all carry the document's url. */
  lemma EmbeddedChunksCarryUrl(doc: SourceDoc, split: Splitter, batchSize: int, embed: BatchEmbedder)
    requires Chunked(doc, split).Success?
    requires Generated(Chunked(doc, split).value, batchSize, embed).Success?
    ensures var ecs := Generated(Chunked(doc, split).value, batchSize, embed).value;
            forall k :: 0 <= k < |ecs| ==> ecs[k].url == doc.url.GetOr("")
  {
    ChunksCarryDocument(doc, split);
    GeneratedKeepsChunks(Chunked(doc, split).value, batchSize, embed);
  }

  /** A stored document: embeddings were deleted exactly when the run was
   *  forced or the stored hash differed; the surviving old embeddings
   *  come first and the `inserted` new ones follow them; at most one row
   *  per chunk is inserted; and the document now carries its hash. */
  lemma StoredDocument(t: Tables, doc: SourceDoc, existing: Option<DocumentInfo>, force: bool,
                       split: Splitter, batchSize: int, embed: BatchEmbedder, fails: Chunk -> bool)
    ensures var (t3, o) := Processed(t, doc, existing, force, split, batchSize, embed, fails);
            o.Stored? ==>
              var kept := if o.deleted then Without(t.embeddings, o.documentId) else t.embeddings;
              o.deleted == Stale(existing, force, HashOf(doc)) &&
              |t3.embeddings| == |kept| + o.inserted &&
              t3.embeddings[..|kept|] == kept &&
              o.inserted <= o.chunks &&
              Info(t3, doc.url.value) == Some(DocumentInfo(o.documentId, HashOf(doc)))
  {
    var hash := HashOf(doc);
    if !Unchanged?(existing, force, hash) && Chunked(doc, split).Success? {
      var cs := Chunked(doc, split).value;
      if cs != [] && Generated(cs, batchSize, embed).Success? && doc.url.Some? {
        var ecs := Generated(cs, batchSize, embed).value;
        GeneratedKeepsChunks(cs, batchSize, embed);
        EmbeddedChunksCarryUrl(doc, split, batchSize, embed);
        var stale := Stale(existing, force, hash);
        WrittenEffect(t, doc, doc.url.value, stale, ecs, fails);
        var (t3, id, n) := Written(t, doc, doc.url.value, stale, ecs, fails);
        assert Processed(t, doc, existing, force, split, batchSize, embed, fails) == (t3, Stored(id, |cs|, n, stale));
      }
    }
  }

  /** A document that has no stored record is never a reason to delete
   *  unless reprocessing is forced: the existing embeddings all stay. */
  lemma NewDocumentKeepsEmbeddings(t: Tables, doc: SourceDoc, split: Splitter, batchSize: int,
                                   embed: BatchEmbedder, fails: Chunk -> bool)
    requires Existing(t, doc).None?
    ensures var (t1, o) := Processed(t, doc, Existing(t, doc), false, split, batchSize, embed, fails);
            o.Stored? ==> !o.deleted && |t1.embeddings| >= |t.embeddings| && t1.embeddings[..|t.embeddings|] == t.embeddings
  {
    StoredDocument(t, doc, Existing(t, doc), false, split, batchSize, embed, fails);
  }

  /** Running the ingestion a second time, unforced, over a document just
   *  stored skips it and changes nothing. */
  lemma SecondRunSkips(t: Tables, doc: SourceDoc, force: bool, split: Splitter, batchSize: int,
                       embed: BatchEmbedder, fails: Chunk -> bool)
    requires UrlOf(doc) != "unknown"
    ensures var (t1, o) := Processed(t, doc, Existing(t, doc), force, split, batchSize, embed, fails);
            o.Stored? ==>
              Processed(t1, doc, Existing(t1, doc), false, split, batchSize, embed, fails) == (t1, Unchanged)
  {
    StoredDocument(t, doc, Existing(t, doc), force, split, batchSize, embed, fails);
  }
}
