// Values shared by the retrieval, chain and ingestion modules: the
// optional and error-carrying results, JSON-like metadata values, a
// retrieved document, a conversation turn, and the document and chunk
// dictionaries of the ingestion pipeline.

module Records {

  datatype Option<T> = None | Some(value: T) {
    function GetOr(default: T): T {
      if Some? then value else default
    }
  }

  /** An operation that either produces a value or raises an exception
   *  whose message is kept. */
  datatype Result<T> = Success(value: T) | Failure(error: string)

  /** The scalar values stored in a document's metadata dictionary. */
  datatype Json = JStr(s: string) | JInt(i: int) | JNull

  type Metadata = map<string, Json>

  /** A document row or search hit as the retrieval code passes it around
   *  (a dictionary with these keys). `similarity` is present on vector
   *  hits only, `bm25Score` on BM25 hits only, `id` on rows read for the
   *  BM25 corpus only. */
  datatype Doc = Doc(
    id: Option<int>,
    content: string,
    url: string,
    title: string,
    metadata: Metadata,
    similarity: Option<real>,
    bm25Score: Option<real>)

  /** One question/answer exchange of the conversation history. */
  datatype Turn = Turn(question: string, answer: string)

  type Embedding = seq<real>

  /** A document dictionary handed to the ingestion pipeline; a key that
   *  is missing (or holds None) is None here. */
  datatype SourceDoc = SourceDoc(
    url: Option<string>,
    title: Option<string>,
    content: Option<string>,
    metadata: Option<Metadata>,
    contentHash: Option<string>)

  /** A chunk dictionary. `embedding` is None until a vector is written
   *  (or after its batch failed, which also sets `error`). */
  datatype Chunk = Chunk(
    chunkText: string,
    chunkIndex: nat,
    url: string,
    title: string,
    metadata: Metadata,
    embedding: Option<Embedding>,
    error: Option<string>)
}
