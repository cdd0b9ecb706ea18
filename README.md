# cv-screener core, modelled in Dafny

cv-screener answers questions about a collection of CVs. It is a retrieval-augmented generation (RAG) service built from two programs.

The **embedder** ingests the CVs:
- it reads each PDF's text and guesses the candidate's name from the file name;
- it splits each text into chunks and embeds the chunks in batches;
- it stores documents and chunk embeddings in a Postgres table pair, skipping documents whose content hash has not changed.

The **API** answers questions through a conversational chain:
- it looks the question up in a TTL response cache;
- it retrieves chunks by vector similarity, optionally merged with a BM25 keyword search into a hybrid score;
- it lays the sources out in relevance tiers and builds a prompt from fixed instruction texts, few-shot examples, the context and the recent conversation;
- it asks the language model and checks the answer against guardrails (citations, footnotes, length, language, copying, hallucination phrases, fabricated claims);
- it remembers the turn, caches the answer and records a pipeline trace and counters.

The model covers these core components, one module per source file:

| module | file(s) | form |
|---|---|---|
| `Chain` | api/rag/chain.py | class `ConversationalRAGChain` with the history field and cache/metrics objects; context formatting and history rendering as loops |
| `Reranker`, `Ranking` | api/rag/reranker.py | class `HybridRetriever` (BM25 cache and index fields); normalisation and merging on arrays; the stable descending sort as an index permutation |
| `Cache` | api/rag/cache.py | classes `MemoryCache` and `ResponseCache` with a clock parameter |
| `Metrics` | api/rag/metrics.py | classes `PipelineTrace` and `MetricsCollector` (in-memory path) |
| `QueryAnalysis`, `PromptTemplate`, `Guardrails`, `Optimizer` | api/rag/prompts.py, query_analyzer.py, prompt_template.py, guardrails.py, optimizer.py | functions, with the phrase, claim and issue loops as methods |
| `ApiConfig`, `EmbedderSettings` | api/config.py, embedder/config.py | functions; the API's rule list walked as a loop |
| `Embedder` | embedder/embedder.py | `process_documents` as a loop over a `Store` object |
| `EmbeddingGenerator` | embedder/processors/embedding_generator.py | in-place batch loop over an array of chunks |
| `Chunker` | embedder/processors/chunker.py | functions and a loop |
| `VectorStore` | embedder/database/vector_store.py | class `Store` over an abstract documents/embeddings table pair |
| `Loaders` | embedder/loaders.py | name guessing as functions; page joining and the file loop as methods |
| `PyText`, `Records` | — | Python string semantics used throughout (`split`, `strip`, ASCII `lower`, slicing, `join`, `in`) and the shared records |

Each imperative operation is proved against a specification function of its inputs and old state; the properties are proved about those functions as lemmas.

Two copies of the prompt logic exist in the repository:
- api/rag/prompts.py is the copy the chain imports;
- query_analyzer.py, prompt_template.py, guardrails.py and optimizer.py are a split copy.

One model serves both copies. It is parameterised by `Copy` where they differ: the few-shot caption for non-English languages, and the euro symbol of the fabricated-claim pattern. Rows cite whichever copy states the property more directly; the cited lines are the same logic in both.

Where the repository's own documentation and its code disagree, the model follows the code:
- cache normalisation lowercases and collapses white space but keeps punctuation;
- an answer is cached even when retrieval found no documents;
- the sources footer is never stripped from the answer;
- a query whose steps raised is still recorded as a successful request, because the trace is closed with no exception in a `finally` block;
- `max_history` 0 keeps the whole history, because `[-0:]` is the whole list.

## Model

| member | source | states |
|---|---|---|
| QueryAnalysis.DetectLanguage | api/rag/query_analyzer.py:23-33 | the analyzer always answers "en" |
| QueryAnalysis.AnyContained | api/rag/prompts.py:329-335 | true iff some marker is a substring of the text |
| QueryAnalysis.ClassifyComplexity | api/rag/prompts.py:306-337 | Complex iff a complex marker occurs in the lowercased query; Moderate iff none does and a moderate marker occurs; Simple iff neither kind occurs |
| QueryAnalysis.DevsIsComplex | api/rag/query_analyzer.py:46-61 | any query containing "devs" is complex, because "vs" is matched as a plain substring |
| QueryAnalysis.FirstTopic | api/rag/prompts.py:370-374 | the first topic, in dictionary order, whose word occurs in the answer; no earlier topic word occurs |
| QueryAnalysis.AugmentShortQuery | api/rag/prompts.py:340-376 | more than two words or an empty history give (query, False). Otherwise augmentation happens iff some topic word occurs in the lowercased last answer, and appends that first topic's phrase after a space. When not augmented the query is unchanged |
| QueryAnalysis.AugmentUsesLastAnswer | api/rag/query_analyzer.py:91-106 | turns before the last one never change the result |
| Ranking.SortedIndicesPermutation | api/rag/reranker.py:139-143 | the stable descending sort of range(n) yields each index below n exactly once |
| Ranking.SortedIndicesSorted | api/rag/reranker.py:139-143 | keys never increase along the sorted indices |
| Ranking.SortedIndicesStable | api/rag/reranker.py:239-243 | indices with equal keys keep their original order, as in Python's stable sort |
| Ranking.SortedIndicesCorrect | api/rag/reranker.py:239-243 | the sort is a permutation, is descending by key and is stable |
| Ranking.Permute | api/rag/reranker.py:239-243 | applying an index order picks element order[k] at position k |
| Reranker.CorpusDocs | api/rag/reranker.py:92-100 | one document dictionary per corpus row, in row order |
| Reranker.TokenizedCorpus | api/rag/reranker.py:102 | each document's content, lowercased and split on whitespace, in cache order |
| Reranker.NormalizedBounds | api/rag/reranker.py:164-178 | every hit gets a normalised value in [0, 1] and nothing else of the hit changes |
| Reranker.NormalizedMonotone | api/rag/reranker.py:171-175 | normalisation preserves the order of the raw scores |
| Reranker.NormalizedExtremes | api/rag/reranker.py:167-178 | with distinct scores the minimum maps to 0 and the maximum to 1; with all scores equal (a single hit included) every value is 1.0 |
| Reranker.NormalizeScores | api/rag/reranker.py:156-178 | the array afterwards holds exactly the normalised list; an empty list is left untouched |
| Reranker.FindKey | api/rag/reranker.py:220 | finds the merged entry with this content, or reports that the content is absent |
| Reranker.WithHybrid | api/rag/reranker.py:232-236 | every merged entry gets alpha * vector_score + (1 - alpha) * bm25_score_norm, and nothing else changes |
| Reranker.MergedKeys | api/rag/reranker.py:206-229 | the merge holds each content of either list exactly once: vector contents first in first-occurrence order, then BM25-only contents in BM25 order |
| Reranker.MergeVectorFacts | api/rag/reranker.py:209-215 | the vector pass sets bm25_score_norm to 0 and keeps both scores in [0, 1] |
| Reranker.MergeBm25Facts | api/rag/reranker.py:218-229 | the BM25 pass gives BM25-only entries vector_score 0 and updates only the BM25 score of an existing entry |
| Reranker.MergedScores | api/rag/reranker.py:206-236 | for normalised inputs both component scores are in [0, 1]; a content missing from one search scores 0 there; with 0 <= alpha <= 1 the hybrid score is in [0, 1] |
| Reranker.RerankedOrder | api/rag/reranker.py:231-243 | the result is a stable reordering of the merged entries, each with its hybrid score, from the highest hybrid score down |
| Reranker.TopIndices | api/rag/reranker.py:139-143 | the first top_k indices of the descending stable sort of the scores, each within range |
| Reranker.Hits | api/rag/reranker.py:146-151 | at most one hit per selected index: only positive scores, copied from the cache with the BM25 score set |
| Reranker.Bm25SelectionRanked | api/rag/reranker.py:136-151 | a successful selection has at most top_k hits; each has a positive score, is a cached document carrying that score, and the scores never increase |
| Reranker.FreshIndexSelects | api/rag/reranker.py:105-106 | an index built from the current cache never makes the selection raise |
| Reranker.StaleIndexRaises | api/rag/reranker.py:105-109 | a reload that finds no rows keeps the old index over an empty cache, and a positive score then raises IndexError |
| Reranker.SelectHits | api/rag/reranker.py:146-151 | the selection loop returns the hits, or IndexError when a positively scored index lies past the cache |
| Reranker.EmptyReloadKeepsIndex | api/rag/reranker.py:89-109 | loading an empty corpus empties the cache but keeps an existing index |
| Reranker.HybridRetriever.constructor | api/rag/reranker.py:23-48 | defaults alpha 0.5 and top-k 20/20, with no index and an empty cache |
| Reranker.HybridRetriever.LoadDocumentsForBm25 | api/rag/reranker.py:66-109 | the cache becomes the corpus rows; the index is rebuilt only when rows exist |
| Reranker.HybridRetriever.EnsureBm25Index | api/rag/reranker.py:111-114 | reloads exactly when there is no index or the cache is empty |
| Reranker.HybridRetriever.RefreshBm25Index | api/rag/reranker.py:284-287 | always reloads |
| Reranker.HybridRetriever.Bm25Search | api/rag/reranker.py:116-154 | ensures the index, then returns the selection over the lowercased, whitespace-split query; without an index the result is empty |
| Reranker.HybridRetriever.MergeAndRerank | api/rag/reranker.py:180-246 | both lists are normalised in place and the result is the stable re-ranking of their merge |
| Reranker.HybridRetriever.Retrieve | api/rag/reranker.py:248-282 | a vector-search failure propagates with the state unchanged. Otherwise the result is the re-ranked merge cut to top_k, or to top_k_vector when top_k is absent or 0. It never has more than that many entries |
| Reranker.IsDiverse | api/rag/reranker.py:330-334 | true iff no kept document has this document's url |
| Reranker.RerankByDiversity | api/rag/reranker.py:304-340 | equals the greedy reference `Diverse`: results[0], then each later result whose url is not yet kept, in input order, until top_k are kept. Hence [] iff the input is []; a subsequence with pairwise distinct urls and at most max(1, top_k) entries; stops early only once top_k are kept |
| Reranker.DiverseKeepsFirstOfUrl | api/rag/reranker.py:323-337 | every kept result is the first result carrying its url, so a later duplicate never displaces an earlier one |
| Cache.NormalizeQueryWords | api/rag/cache.py:163-167 | the normalised query is the query's whitespace-separated words, lowercased and joined by single spaces |
| Cache.NormalizeQueryShape | api/rag/cache.py:163-167 | the normalised query has no uppercase letter and no surrounding whitespace |
| Cache.NormalizeQueryIdempotent | api/rag/cache.py:153-167 | normalising twice is the same as normalising once |
| Cache.NormalizeQuerySame | api/rag/cache.py:163-167 | two queries normalise alike iff they have the same words up to case, however they are spaced; punctuation counts |
| Cache.NormalizeQueryCaseInsensitive | api/rag/cache.py:164 | a query and its lowercase spelling normalise alike |
| Cache.AfterLastColon | api/rag/cache.py:182 | the colon-free suffix after the last ':' of a key source |
| Cache.KeySourceInjective | api/rag/cache.py:180-182 | "normalised:top_k" strings are equal iff the normalised queries and the top_k values are equal, because str(int) has no colon |
| Cache.CacheKeyInjective | api/rag/cache.py:169-184 | the key depends on the normalised query and top_k, and on nothing else; each such pair gets its own key |
| Cache.PutThenFetch | api/rag/cache.py:48-65 | a value set at t0 is answered up to and including t0 + ttl, and not after |
| Cache.PutOtherKey | api/rag/cache.py:60-65 | setting one key leaves what every other key answers unchanged |
| Cache.AfterFetchSameAnswers | api/rag/cache.py:53-56 | deleting an expired entry changes no later answer and keeps every other entry |
| Cache.MemoryCache.constructor | api/rag/cache.py:45-46 | starts empty |
| Cache.MemoryCache.Get | api/rag/cache.py:48-58 | an absent key gives None; now > expires_at deletes the entry and gives None; now == expires_at is still a hit |
| Cache.MemoryCache.Set | api/rag/cache.py:60-65 | stores the value with expires_at = now + ttl, replacing any entry |
| Cache.MemoryCache.Delete | api/rag/cache.py:67-70 | removes the key if present and nothing else |
| Cache.MemoryCache.Clear | api/rag/cache.py:72-74 | no entry remains |
| Cache.Report | api/rag/cache.py:265-281 | the counters, total = hits + misses, and a hit rate in [0, 1] that is hits / total, or 0 with no requests |
| Cache.CountGetOne | api/rag/cache.py:203-208 | an enabled get adds exactly one of hits and misses, a hit iff an entry was found; sets is unchanged |
| Cache.ResponseCache.constructor | api/rag/cache.py:130-151 | ttl 3600 and enabled by default, all counters 0 |
| Cache.ResponseCache.Get | api/rag/cache.py:186-210 | disabled: None with no state change. Enabled: the backend's answer for the key, the expired entry dropped, and exactly one counter incremented |
| Cache.ResponseCache.Set | api/rag/cache.py:212-240 | disabled: no change. Enabled: stores {response, sources, timestamp = now} under the key with the cache's ttl and increments sets |
| Cache.ResponseCache.InvalidateUrl | api/rag/cache.py:242-257 | changes no state |
| Cache.ResponseCache.Clear | api/rag/cache.py:259-263 | empties the backend and resets all three counters, even when disabled |
| Cache.ResponseCache.GetStats | api/rag/cache.py:265-281 | the report of the current counters |
| Cache.StoredResponseFound | api/rag/cache.py:180-210 | a stored response is found until it expires by any query with the same words up to case and spacing and the same top_k; other queries answer as before |
| Chain.AdmitsExactlyOne | api/rag/chain.py:91-93 | each tier's comprehension admits a similarity exactly when that is its tier (>= 0.75, [0.5, 0.75), < 0.5) |
| Chain.Select | api/rag/chain.py:91-93 | a tier list keeps only documents of that tier |
| Chain.TiersPartition | api/rag/chain.py:91-93 | every retrieved document lands in exactly one tier list, and the three lists together are the retrieved documents |
| Chain.Truncated | api/rag/chain.py:143 | content of at most 300 characters is unchanged; longer content becomes its first 300 characters plus "..." |
| Chain.MapAppend | api/rag/chain.py:95-159 | rendering a concatenation renders each part |
| Chain.RenderAppend | api/rag/chain.py:95-159 | the rendered context lines of two blocks are the rendered lines of each |
| Chain.SourcesOfTiers | api/rag/chain.py:98-150 | the sources listed in the context are those of the high, medium and (when shown) low blocks, in that order |
| Chain.IncludedNumbered | api/rag/chain.py:96-150 | the running number continues from tier to tier without a gap |
| Chain.SourcesNumbered | api/rag/chain.py:87-150 | the listed sources are the high, then the medium, then the low documents, numbered 1, 2, 3, ... Low documents appear only when high + medium < 3. Each source sits under its own tier |
| Chain.FormatContextWithQualityTiers | api/rag/chain.py:74-159 | returns the fixed "No relevant information ..." text for no documents. Otherwise it returns the tier blocks and the usage rules joined by newlines. Low entries omit the URL and are truncated |
| Chain.AppendBlock | api/rag/chain.py:98-114 | appends a tier's two heading lines and its entries; the running number advances by the tier's size |
| Chain.AppendEntries | api/rag/chain.py:102-114 | appends one entry per document numbered from the running number, in order |
| Chain.RecentTurns | api/rag/chain.py:172 | conversation_history[-max_history:]: the last max_history turns for a positive limit, every turn for 0 (-0 == 0), and the oldest turns dropped for a negative limit |
| Chain.TrimmedKeepsLatest | api/rag/chain.py:320-324 | with a positive limit the history after a turn has min(len + 1, max_history) entries, ends with the new turn and is the newest part of the list; max_history 0 keeps every turn |
| Chain.GeneratedReply | api/rag/chain.py:177-210 | an answered call gives the stripped content and the call's usage. A call that raised gives "Error generating response: " + message and no usage, and is not raised |
| Chain.TopK | api/rag/chain.py:226 | top_k or 5: an absent or zero top_k becomes 5 |
| Chain.QueryPaths | api/rag/chain.py:237-335 | a cache hit returns the cached response and sources and leaves the history alone. A retrieval that raised fails with that error. Otherwise the result is the answer with the retrieved documents, and exactly one turn is appended and trimmed. Validation never blocks the answer |
| Chain.HistoryStaysBounded | api/rag/chain.py:320-324 | with max_history >= 1 the history never exceeds it, and an answered query ends it with its own turn |
| Chain.AnswerIsStored | api/rag/chain.py:326-328 | every answered query is stored in the cache, even when retrieval found no documents |
| Chain.StoredIsFetched | api/rag/chain.py:240-246 | what an enabled cache stored is found again within ttl seconds |
| Chain.HitAnswers | api/rag/chain.py:240-246 | a cache hit answers with the cached response and sources and does not touch the history |
| Chain.RepeatedQueryAnsweredFromCache | api/rag/chain.py:240-328 | asking an answered question again with the same k within ttl is a cache hit with the same answer and sources, whatever the retriever and model now do |
| Chain.NoCacheAlwaysRetrieves | api/rag/chain.py:240-255 | without an enabled cache no query is a hit, the cache is untouched and an answer carries the retrieved documents |
| Chain.FailedQueryCountedAsSuccess | api/rag/chain.py:337-339 | the finally block closes the trace with no exception, so a query whose retrieval raised counts as a successful request and no error type is counted |
| Chain.ConversationalRAGChain.constructor | api/rag/chain.py:33-72 | starts with an empty history |
| Chain.ConversationalRAGChain.FormatChatHistory | api/rag/chain.py:161-175 | "No prior conversation." for an empty history, else the recent turns as "User: q\nAssistant: a" blocks joined by a blank line |
| Chain.ConversationalRAGChain.ClearHistory | api/rag/chain.py:341-344 | the history becomes empty |
| Chain.ConversationalRAGChain.GetHistoryLength | api/rag/chain.py:346-353 | the number of remembered turns |
| Chain.ConversationalRAGChain.CheckCache | api/rag/chain.py:240-249 | the cache's answer for (question, k), with the cache hit or miss counted only when there is a cache |
| Chain.ConversationalRAGChain.Stage | api/rag/metrics.py:224-242 | a measured stage changes no counter and no trace list |
| Chain.ConversationalRAGChain.Retrieve | api/rag/chain.py:251-259 | the retriever's result for (question, k); a success records its result count and one query |
| Chain.ConversationalRAGChain.Generate | api/rag/chain.py:287-299 | the generated reply and usage; the token counts are recorded only when usage was reported |
| Chain.ConversationalRAGChain.Validate | api/rag/chain.py:301-317 | validation changes no counter; its outcome only feeds a log line |
| Chain.ConversationalRAGChain.BuildPrompt | api/rag/chain.py:261-278 | the tiered context and the prompt the optimizer builds from it, from the formatted history and from the history before the new turn |
| Chain.ConversationalRAGChain.Remember | api/rag/chain.py:319-324 | appends (question, response) and cuts the list to its last max_history entries when it grew longer |
| Chain.ConversationalRAGChain.StoreAnswer | api/rag/chain.py:326-328 | cache.set of the answer and the retrieved documents, when there is a cache |
| Chain.ConversationalRAGChain.Finish | api/rag/chain.py:264-335 | from the prompt on: generation, validation, then history and cache updated, and the token counts recorded |
| Chain.ConversationalRAGChain.Reply | api/rag/chain.py:261-335 | for retrieved documents the result, history, cache and counters are those of the query specification |
| Chain.ConversationalRAGChain.Miss | api/rag/chain.py:251-335 | after a miss: a failed retrieval propagates with nothing else changed; otherwise the answer path |
| Chain.ConversationalRAGChain.Answer | api/rag/chain.py:237-335 | the try block: result, history, cache and counters equal the query specification; the history bound is kept |
| Chain.ConversationalRAGChain.Query | api/rag/chain.py:212-339 | the query specification with effective k = top_k or 5. With metrics, the new trace is last in a buffer of at most 100 traces, and one more request is counted as a success. That trace holds this question, the metadata {top_k, model}, start and end time now, and no error |
| Metrics.StageNames | api/rag/metrics.py:220 | the stage names in insertion order |
| Metrics.AssignStageLookup | api/rag/metrics.py:41-45 | after add_stage the name answers the new duration and metadata, and every other name answers what it did before |
| Metrics.AssignStageNameList | api/rag/metrics.py:42 | an existing name keeps its place; a new name is added last |
| Metrics.AssignStageNames | api/rag/metrics.py:42-45 | stage names stay distinct, so re-adding a stage replaces it |
| Metrics.PipelineTrace.constructor | api/rag/metrics.py:25-33 | a new trace has no end time, no stages and no error |
| Metrics.PipelineTrace.AddStage | api/rag/metrics.py:35-45 | stages[name] = {duration, metadata or {}}; end time and error unchanged |
| Metrics.PipelineTrace.Finish | api/rag/metrics.py:47-50 | sets the end time to now and the error; stages unchanged |
| Metrics.PipelineTrace.TotalDuration | api/rag/metrics.py:52-56 | 0.0 before finish, else end - start |
| Metrics.PipelineTrace.ToDict | api/rag/metrics.py:58-69 | the query cut to its first 100 characters; success iff there is no error; error, stages and total duration copied |
| Metrics.AppendBoundedProps | api/rag/metrics.py:211-215 | after append-then-pop(0) the buffer has min(len + 1, 100) traces, the new one last, the oldest evicted first |
| Metrics.CountRequest | api/rag/metrics.py:244-254 | total grows by one and exactly one of success and error does, so success + error == total is kept |
| Metrics.Bump | api/rag/metrics.py:310-317 | errors[type] starts at 0 and grows by one; other types are unchanged |
| Metrics.AppendDuration | api/rag/metrics.py:256-263 | the stage's duration list gets the new duration last; other stages are unchanged |
| Metrics.MetricsCollector.constructor | api/rag/metrics.py:84-101 | the in-memory collector starts with no traces and every counter at 0 |
| Metrics.MetricsCollector.StartTrace | api/rag/metrics.py:196-200 | a fresh trace of the query started now with the given metadata or {} |
| Metrics.MetricsCollector.EndTrace | api/rag/metrics.py:202-215 | finishes the trace with the exception text, if any. Counts one request as a success iff nothing was raised, and counts the error type otherwise. Stores the trace in the bounded buffer. Nothing else changes |
| Metrics.MetricsCollector.StoreTrace | api/rag/metrics.py:211-215 | appends the trace and drops the oldest beyond 100 |
| Metrics.MetricsCollector.MeasureStage | api/rag/metrics.py:224-242 | records the stage on the trace and its duration in stage_durations; nothing else changes |
| Metrics.MetricsCollector.RecordRequest | api/rag/metrics.py:244-254 | counts one request as success or error |
| Metrics.MetricsCollector.RecordCacheHit | api/rag/metrics.py:265-270 | hits + 1, nothing else |
| Metrics.MetricsCollector.RecordCacheMiss | api/rag/metrics.py:272-277 | misses + 1, nothing else |
| Metrics.MetricsCollector.RecordRetrieval | api/rag/metrics.py:279-293 | adds num_results to the result total and one query, nothing else |
| Metrics.MetricsCollector.RecordTokenUsage | api/rag/metrics.py:295-308 | adds both token counts, nothing else |
| Metrics.MetricsCollector.RecordError | api/rag/metrics.py:310-317 | counts one more error of the type, nothing else |
| Metrics.MetricsCollector.GetRecentTraces | api/rag/metrics.py:319-329 | the dictionaries of traces[-limit:]: the last limit traces, or all of them for limit 0 |
| ApiConfig.ParseFlag | api/config.py:42 | a flag is true iff its environment value (or the default for a missing variable) spells "true" in some mix of upper and lower case, and false for every other value |
| ApiConfig.FlagSpellings | api/config.py:42-51 | examples of that rule: "TRUE" and "True" switch a flag on; "1", "yes" and "on" switch it off |
| ApiConfig.Rule | api/config.py:63-91 | rule k reports the error of rank k, so the rule table follows the order of validate |
| ApiConfig.Validate | api/config.py:54-95 | the list of errors of every failing rule, in rule order |
| ApiConfig.ErrorsMembers | api/config.py:61-91 | an error is listed iff its rule failed |
| ApiConfig.ErrorsOrdered | api/config.py:61-91 | listed errors appear in rule order |
| ApiConfig.ErrorsEmpty | api/config.py:93-95 | the list is empty iff no rule failed |
| ApiConfig.ErrorsComplete | api/config.py:61-95 | validate raises iff some setting is out of bounds: a missing key or URL, a port outside 1..65535, a negative max_history, top_k or rerank_top_k below 1, a temperature outside [0, 2], max_tokens <= 0, or a cache ttl <= 0 when caching is on |
| ApiConfig.ConditionalRules | api/config.py:72-91 | the metrics port is checked only with metrics on and the ttl only with the cache on; max_history 0 passes; top_k 0 and rerank_top_k 0 fail |
| ApiConfig.Bullets | api/config.py:94 | one "  • message" line per error, in order |
| ApiConfig.GetConfig | api/config.py:98-107 | returns the configuration iff it validates; otherwise it raises "Configuration validation failed:" followed by every error as a bullet line |
| EmbedderSettings.Validate | embedder/config.py:35-55 | None iff every setting is acceptable (a key and URL, batch and chunk sizes > 0, 0 <= overlap < chunk size, an existing input directory). A missing key or URL is reported before any numeric check. Otherwise the first failing check in order is reported |
| EmbedderSettings.GetConfig | embedder/config.py:58-67 | returns the configuration iff it validates, else raises the first failing check's message |
| Embedder.ProcessDocument | embedder/embedder.py:92-133 | one document's pass through the try block changes the tables exactly as the specification function Processed does. Every exception (a failed split, an embedding error, a missing url, a store error) is caught and reported as Raised |
| Embedder.ProcessDocuments | embedder/embedder.py:63-139 | the loop over the documents leaves the tables and totals that Run computes. It fails with the error of the first document lookup that raises |
| Embedder.RunStep | embedder/embedder.py:82-130 | a document whose lookup does not raise is processed against the tables the earlier documents left, and its chunk and embedding counts are added to the totals |
| Embedder.LookupErrorStops | embedder/embedder.py:87-88 | a get_document_info that raises (it is outside the try block) ends the run with that error |
| Embedder.RunStopsAfterError | embedder/embedder.py:82-92 | once a lookup has raised, no later document changes the tables or the totals |
| Embedder.UnchangedDocumentSkipped | embedder/embedder.py:94-100 | an unforced run skips a document whose stored hash equals its own, with no write at all |
| Embedder.OnlyStoredWrites | embedder/embedder.py:94-133 | only a stored document writes anything. The no-chunks outcome happens iff the document is not unchanged and the chunker returns no chunks |
| Embedder.WrittenEffect | embedder/embedder.py:113-125 | upsert, optional delete, then insert: the surviving old embeddings come first, the n new rows follow them, n is at most the number of chunks, and the document now carries its hash |
| Embedder.EmbeddedChunksCarryUrl | embedder/embedder.py:102-111 | every chunk handed to the store carries the document's url |
| Embedder.StoredDocument | embedder/embedder.py:113-125 | for a stored document, embeddings were deleted iff the run was forced or the stored hash differed; the surviving old rows come first and the inserted rows follow; at most one row per chunk; the document carries its hash |
| Embedder.NewDocumentKeepsEmbeddings | embedder/embedder.py:121-122 | a document with no stored record, in an unforced run, never deletes: all existing embeddings stay, as a prefix |
| Embedder.SecondRunSkips | embedder/embedder.py:94-100 | after a document is stored, an unforced second pass over it skips it and changes nothing (ingestion is idempotent) |
| EmbeddingGenerator.GenerateEmbeddings | embedder/processors/embedding_generator.py:78-125 | an empty list returns a new empty list and makes no call. A zero batch size raises the range() ValueError and a negative one makes no batch; neither changes a chunk. A positive size updates the list in place to the embedded chunks, returns it, and makes exactly the calls one per batch in order |
| EmbeddingGenerator.EmbedAllBatches | embedder/processors/embedding_generator.py:95-118 | the batch loop leaves every chunk as its own batch's answer made it, and the calls sent are the batch texts in order |
| EmbeddingGenerator.EmbedBatch | embedder/processors/embedding_generator.py:96-118 | one batch sends the texts of chunks i..end-1 and writes the service's answer into exactly those chunks |
| EmbeddingGenerator.WriteVectors | embedder/processors/embedding_generator.py:107-108 | the zip loop gives each chunk of the batch the vector at its position, stops at the shorter list, and touches no other chunk |
| EmbeddingGenerator.WriteError | embedder/processors/embedding_generator.py:113-118 | a failed batch sets embedding None and the error text on each of its chunks and on no other |
| EmbeddingGenerator.GeneratedKeepsChunks | embedder/processors/embedding_generator.py:78-125 | embedding keeps the list's length and every chunk's text, index, url, title and metadata |
| EmbeddingGenerator.CallsCount | embedder/processors/embedding_generator.py:95 | n chunks in batches of size take ceil(n / size) service calls: the fewest whose batches cover the list |
| EmbeddingGenerator.TwelveChunksThreeCalls | embedder/processors/embedding_generator.py:95-96 | twelve chunks with batch size five take three calls, the last one with two texts |
| EmbeddingGenerator.FailedBatchMarksChunk | embedder/processors/embedding_generator.py:113-118 | a chunk whose batch failed ends with no vector, the service's error and its own text; only its own batch decides |
| EmbeddingGenerator.ReturnedBatchZips | embedder/processors/embedding_generator.py:105-108 | a chunk whose batch came back gets the vector at its position in the batch. A chunk beyond the returned vectors is left exactly as it was |
| EmbeddingGenerator.GenerateSingleEmbedding | embedder/processors/embedding_generator.py:127-138 | succeeds iff the one-text call succeeds with a non-empty answer, and then it is the first vector. A service error is passed on |
| Chunker.ChunkMetadata | embedder/processors/chunker.py:72-77 | the chunk's metadata is the document's plus chunk_index, total_chunks and chunk_size, which override entries of the same name; every other entry is kept unchanged |
| Chunker.ChunkDocument | embedder/processors/chunker.py:42-85 | blank content gives no chunks. A splitter error is raised. Otherwise there is one chunk per piece in the splitter's order, numbered from 0, each with the piece's text, the document's url and title (default ""), the merged metadata and no embedding |
| Chunker.ChunkDocuments | embedder/processors/chunker.py:87-110 | the loop returns exactly AllChunks: every document's chunks in input order |
| Chunker.AllChunksAppend | embedder/processors/chunker.py:97-106 | chunking a concatenated list is chunking each part and joining the results, so one failing document never hides another's chunks |
| Chunker.SkipsFailedDocument | embedder/processors/chunker.py:100-106 | a document whose chunking raises adds nothing; any other document adds exactly its own chunks |
| Chunker.ChunksCarryDocument | embedder/processors/chunker.py:66-79 | every chunk carries its document's url and title |
| VectorStore.FindUrl | embedder/database/vector_store.py:170-176 | the index of the first row holding the url, with no earlier row holding it. None iff no row holds it |
| VectorStore.DocumentId | embedder/database/vector_store.py:161-176 | None iff no stored document has the url; otherwise the id of a row with that url |
| VectorStore.Info | embedder/database/vector_store.py:178-198 | None iff the url is absent; otherwise its id (the one get_document_id returns) and its content hash |
| VectorStore.Store.constructor | embedder/database/vector_store.py:97-137 | a fresh schema: both tables empty and the SERIAL id starting at 1, so the tables are well formed |
| VectorStore.Store.GetDocumentId | embedder/database/vector_store.py:161-176 | returns the id the table model gives for the url, or None, and changes nothing |
| VectorStore.Store.GetDocumentInfo | embedder/database/vector_store.py:178-198 | returns the stored id and hash for the url, or None, and changes nothing |
| VectorStore.Store.InsertDocument | embedder/database/vector_store.py:200-237 | the tables become the upsert by url and the returned id is the row's id |
| VectorStore.Store.DeleteEmbeddingsForDocument | embedder/database/vector_store.py:239-255 | the embeddings table loses exactly the rows of that document id, in order; the documents are untouched |
| VectorStore.Store.InsertEmbeddings | embedder/database/vector_store.py:257-317 | the tables and the count are those of insert_embeddings over the chunks that carry an embedding |
| VectorStore.Store.InsertValid | embedder/database/vector_store.py:278-317 | the loop over the valid chunks leaves the tables and count of InsertAll; a chunk that raises is rolled back and the loop goes on |
| VectorStore.Store.StoreChunk | embedder/database/vector_store.py:279-314 | one pass finds or creates the chunk's document, then inserts its row or rolls that insert back |
| VectorStore.UpsertLookup | embedder/database/vector_store.py:218-234 | a stored url keeps its id and its row count; a new url gets the sequence's next value as id and one more row; either way the sequence advances by one (the SERIAL default is drawn before the conflict check), the url's row afterwards is exactly (id, url, title, content, metadata, hash), and embeddings are untouched |
| VectorStore.UpsertOtherUrls | embedder/database/vector_store.py:218-234 | an upsert leaves every other url's lookup as it was |
| VectorStore.UpsertWellFormed | embedder/database/vector_store.py:218-234 | an upsert keeps urls unique (the UNIQUE constraint) and ids distinct and below the sequence's next value |
| VectorStore.DeleteRemovesExactly | embedder/database/vector_store.py:248-253 | a row survives the delete iff it was there and belongs to another document |
| VectorStore.InsertChunkEffect | embedder/database/vector_store.py:279-314 | a chunk is inserted iff its INSERT is not refused. It adds one row then, and none otherwise. Old rows are never changed. Its url has a document afterwards, even when the insert was rolled back |
| VectorStore.InsertAllEffect | embedder/database/vector_store.py:278-317 | the loop appends exactly count rows, with count at most the number of chunks, and changes no old row. Every chunk's url has a document afterwards, and no stored document is lost |
| VectorStore.InsertChunkKeepsDocuments | embedder/database/vector_store.py:283-292 | a stored url stays stored after any chunk |
| VectorStore.InsertedCount | embedder/database/vector_store.py:269-276 | an empty list, or one where no chunk has an embedding, returns 0 and changes nothing. Otherwise the count is at most the number of chunks with an embedding, and exactly that many rows are appended |
| VectorStore.MissingDocumentCreated | embedder/database/vector_store.py:283-292 | a chunk whose url has no document creates one with the sequence's next value as id and an empty content hash |
| VectorStore.InsertAllStoredUrl | embedder/database/vector_store.py:283-284 | chunks of an already stored document never touch the documents table |
| VectorStore.InsertedStoredUrl | embedder/database/vector_store.py:257-317 | insert_embeddings for chunks of one stored url leaves the documents table and the id sequence unchanged |
| Loaders.PrefixEnd | embedder/loaders.py:91 | the match length of the case-insensitive prefix pattern: within the stem, and 0 when the stem does not start with "cv" |
| Loaders.Unhyphen | embedder/loaders.py:92 | every "_" and "-" becomes a space and every other character stays |
| Loaders.Title | embedder/loaders.py:94 | str.title() on ASCII keeps the length |
| Loaders.TitleShape | embedder/loaders.py:94 | title() changes only case: lowering undoes it, and letters and spaces stay where they were. A letter not preceded by a letter is not lower case, and a letter after a letter is not upper case |
| Loaders.CleanedNameChars | embedder/loaders.py:91-93 | the cleaned name holds no "-" or "_", only blanks as white space, and none at either end |
| Loaders.TitledName | embedder/loaders.py:94 | title() of a cleaned name is the same name up to case and a shown name |
| Loaders.CandidateNameShape | embedder/loaders.py:87-94 | when nothing is left after cleaning, the stem itself is the name. Otherwise the name is the cleaned words up to case, with no separators and with every word starting upper case |
| Loaders.SplitNoSeps | embedder/loaders.py:93 | the words of a separator-free string hold no separator |
| Loaders.PrefixMatch | embedder/loaders.py:91 | the pattern consumes "cv" in any case, separators, digits and separators, and leaves the rest when it starts with a letter |
| Loaders.PrefixOnlyStem | embedder/loaders.py:91-94 | a stem that is only the prefix (as in "CV-007") falls back to the stem itself |
| Loaders.NumberedStem | embedder/loaders.py:87-94 | a stem such as "cv-02-caitlin-cannon" gives "Caitlin Cannon" |
| Loaders.TwoWordName | embedder/loaders.py:91-94 | a prefixed stem whose rest is two lower-case words joined by "-" gives both words capitalised, one blank between them |
| Loaders.OneWordName | embedder/loaders.py:91-94 | a prefixed stem whose rest is one lower-case word gives that word capitalised |
| Loaders.CvInsideName | embedder/loaders.py:91 | the pattern also fires on a plain name: "cv" followed directly by a lower-case word is dropped, as in "cvetkova" giving "Etkova" |
| Loaders.PageTexts | embedder/loaders.py:73-77 | at most one text per page, each non-empty and not ending in white space |
| Loaders.ExtractText | embedder/loaders.py:67-80 | the loop returns the stripped non-blank page texts joined by "\n\n", and the page count including blank pages |
| Loaders.ExtractedBlank | embedder/loaders.py:40-80 | the extracted text strips to "" iff no page has text, so load skips exactly the PDFs without text |
| Loaders.Load | embedder/loaders.py:25-65 | the loop returns Loaded: one document per readable file with text, in the sorted glob order |
| Loaders.FileDocumentShape | embedder/loaders.py:44-59 | a loaded file's document has url "cv://" + stem, the guessed name as title and candidate, non-blank content and the hash of that content |
| Loaders.LoadedDocuments | embedder/loaders.py:36-62 | no more documents than files. Each document comes from a file with that file's url and title, its candidate metadata is its title, its content is non-blank and its hash is its content's hash |
| Loaders.LoadedUrlsAvoid | embedder/loaders.py:48 | no loaded document carries the url of a stem that no file has |
| Loaders.LoadedUrlsDistinct | embedder/loaders.py:48 | files with distinct stems give documents with distinct urls, so no loaded document overwrites another in the store |
| Loaders.LoadedAppend | embedder/loaders.py:36-62 | loading a concatenation is loading each part and joining the results, so a failing file never hides the others |
| Loaders.SkippedFile | embedder/loaders.py:36-62 | a file contributes nothing iff opening it raised or none of its pages has text |
| Guardrails.DigitRunLength | api/rag/prompts.py:408 | the run from p is made of digits, stays inside the text, and is followed by a non-digit or the end |
| Guardrails.CitationsSound | api/rag/prompts.py:408 | every number the citation scan yields is the value of a "[digits]" token of the response |
| Guardrails.CitationsComplete | api/rag/prompts.py:408 | every "[digits]" token of the response is found by the scan |
| Guardrails.CitationAt | api/rag/prompts.py:408-418 | the scan reads a token at i as its next citation, the int() of its digits, and then resumes after the "]" |
| Guardrails.NumberSetMembers | api/rag/prompts.py:418 | set() of the citation list holds exactly its numbers |
| Guardrails.AvailableMembers | api/rag/prompts.py:419 | the available numbers are exactly 1..len(sources) |
| Guardrails.UncitedMembers | api/rag/prompts.py:420 | a source number is unused iff it lies in 1..n and is never cited |
| Guardrails.PhantomMembers | api/rag/prompts.py:424 | a number is phantom iff it is cited and lies outside 1..n |
| Guardrails.CoverageSets | api/rag/prompts.py:417-426 | the unused and phantom sets are exactly the set differences available - cited and cited - available |
| Guardrails.HasUncitedNonEmpty | api/rag/prompts.py:421 | the unused check fires iff the unused set is non-empty |
| Guardrails.HasPhantomNonEmpty | api/rag/prompts.py:425 | the phantom check fires iff the phantom set is non-empty |
| Guardrails.Max1 | api/rag/guardrails.py:61-70 | the max(.., 1) denominator is at least 1 and at least its argument |
| Guardrails.CountTargets | api/rag/guardrails.py:70 | the number of target words is at most the number of words |
| Guardrails.FoundPhrasesMembers | api/rag/prompts.py:453-457 | a phrase is found iff it is listed and occurs in the lowercased response |
| Guardrails.FindPhrases | api/rag/prompts.py:453-457 | the phrase loop returns the phrases occurring in the response, in list order |
| Guardrails.MeasureResponse | api/rag/prompts.py:403-457 | the measurements taken one check at a time are those the specification function Measure gives |
| Guardrails.CollectIssues | api/rag/prompts.py:403-460 | the issues list appended check by check is IssuesFrom, in check order |
| Guardrails.ValidateResponse | api/rag/prompts.py:385-470 | the result is ValidationOf: passed, issues, score, the citation count and the footnote flag |
| Guardrails.Reported | api/rag/prompts.py:403-460 | check k reports an issue of rank k |
| Guardrails.IssuesMembers | api/rag/prompts.py:403-460 | an issue is listed iff the check of its rank runs, fires and reports that issue |
| Guardrails.TooShortKind | api/rag/guardrails.py:36-37 | the too-short issue is listed iff the too-short check fired |
| Guardrails.MissingCitationsKind | api/rag/prompts.py:409-410 | the missing-citations issue is listed iff there are sources and no citation |
| Guardrails.MissingFootnotesKind | api/rag/prompts.py:412-415 | the missing-footnotes issue is listed iff there are sources and no footnote marker |
| Guardrails.CopiesContextKind | api/rag/guardrails.py:59-62 | the copy issue is listed iff the copy check fired |
| Guardrails.WrongLanguageKind | api/rag/guardrails.py:64-73 | the language issue, carrying the expected language, is listed iff the language check fired |
| Guardrails.TooLongKind | api/rag/guardrails.py:75-77 | the too-long issue with the word count is listed iff there are more than 700 words |
| Guardrails.HallucinationsKind | api/rag/prompts.py:459-460 | a hallucination issue is listed iff some phrase was found, and it carries exactly the found phrases |
| Guardrails.UnusedSourcesKind | api/rag/prompts.py:417-422 | an unused-sources issue is listed iff there are sources and citations and some source is uncited; it carries exactly the uncited set |
| Guardrails.PhantomCitationsKind | api/rag/prompts.py:417-426 | a phantom issue is listed iff there are sources and citations and some citation is out of range; it carries exactly that set |
| Guardrails.IssueConditions | api/rag/guardrails.py:34-91 | each issue is listed iff its condition holds on the response: empty or under 10 stripped characters; sources without citations; sources without footnotes; the copy ratio; the language ratio; more than 700 words; the found phrases |
| Guardrails.CoverageIssues | api/rag/prompts.py:417-426 | with sources and citations, the unused issue carries exactly available - cited and the phantom issue cited - available, each only when non-empty |
| Guardrails.RanksAppend | api/rag/prompts.py:403-460 | appending at most one issue of a higher rank keeps the ranks increasing |
| Guardrails.IssuesUpToOrdered | api/rag/prompts.py:403-460 | the first k checks give at most k issues, in increasing check rank |
| Guardrails.IssuesOrdered | api/rag/prompts.py:403-460 | the issues come in check order with at most one per kind, so at most nine, and never a fabricated-claims entry |
| Guardrails.ScoreBounds | api/rag/prompts.py:462-466 | the score lies in [0, 1] and drops 0.15 per issue. It is 0 exactly from seven issues on. The response passes iff there is no issue, and a passing response scores 1 |
| Guardrails.BlankResponseIssues | api/rag/guardrails.py:36-73 | a response of white space only, the empty one included, is both too short and out of language |
| Guardrails.UppercasePhrasesNeverFound | api/rag/prompts.py:448-457 | the phrases with an upper-case "I" are never found, because the response is lowercased first |
| Guardrails.ZeroIsPhantom | api/rag/prompts.py:417-426 | with sources, a "[0]" in the response always gives a phantom issue containing 0 |
| Guardrails.RepeatedCitationScan | api/rag/prompts.py:408 | "[1][1]" holds the citation 1 twice |
| Guardrails.RepeatedCitation | api/rag/guardrails.py:48-99 | one source cited twice counts 2 citations and leaves no unused source: the count keeps duplicates, coverage uses the set |
| Guardrails.MatchedClaims | api/rag/prompts.py:502-505 | at most one entry per pattern |
| Guardrails.ScanMarkers | api/rag/prompts.py:502-505 | the marker loop returns the claim types whose pattern occurs, in marker order |
| Guardrails.DetectFabricatedClaims | api/rag/guardrails.py:104-137 | the claim types whose pattern occurs in the lowercased response, in pattern order, at most seven |
| Guardrails.MatchedClaimsExact | api/rag/guardrails.py:132-135 | a claim type is reported iff one of its patterns occurs |
| Guardrails.PatternReported | api/rag/guardrails.py:132-135 | a pattern that occurs gets its claim type reported |
| Guardrails.MatchedClaimsEmpty | api/rag/guardrails.py:132-137 | no claim is reported iff no pattern occurs |
| Guardrails.EuroAmountOccurs | api/rag/prompts.py:489 | a digit directly followed by "€" matches the live copy's euro pattern |
| Guardrails.EuroAmountDetected | api/rag/prompts.py:487-505 | such a text is reported as "specific price in euros" by the live copy |
| Guardrails.MisdecodedEuroMissed | api/rag/guardrails.py:119 | the split copy's euro pattern, whose symbol is the bytes "â‚¬", never matches a text without "â". Python's `lower()` would also turn "Â" into "â"; the model's lowercasing is ASCII only (see "## Left out"), so a response containing "Â" is outside what this states |
| Guardrails.SeventyEuros | api/rag/prompts.py:489 | "70€" matches the live pattern and not the split copy's |
| Optimizer.CreatePrompt | api/rag/prompts.py:549-601 | the metadata's prompt length is the prompt's length and its original question is the question as asked. An augmented question is recorded iff augmentation happened |
| Optimizer.AugmentationGate | api/rag/prompts.py:571-576 | augmentation happens iff it is enabled, a history is given, the question has at most two words and the last answer names a topic. The prompt question is then the original plus the first topic's phrase, and otherwise the original with no augmented question recorded |
| Optimizer.CreatePromptAssembles | api/rag/optimizer.py:73-90 | the language is "en", the complexity is that of the question as asked, and the prompt is the configured copy's full prompt for the prompt question, with the few-shot block iff configured |
| Optimizer.ValidateResponse | api/rag/prompts.py:603-652 | the result is ReportOf: the fixed passing answer when validation is off, otherwise the validator's result with the fabricated claims layered over it |
| Optimizer.AddClaims | api/rag/optimizer.py:141-150 | found claims append one issue, clear passed and take 0.3 off the score floored at 0. With no claims the validator's fields are kept |
| Optimizer.WithClaimsConsistent | api/rag/prompts.py:636-645 | adding claims keeps the invariants: passed iff no issue, score in [0, 1], and a passing result scores 1. No claims leave the result as it was, and the claims flag is set iff claims were found |
| Optimizer.ReportInvariant | api/rag/prompts.py:622-645 | every report, skipped or checked, passes iff it has no issue, scores within [0, 1], and scores 1 when it passes |
| Optimizer.ReportWithoutClaims | api/rag/prompts.py:622-640 | with validation off the answer is passed, no issues and score 1.0; with it on and no claims, the validator's passed, issues and score come back unchanged |
| Optimizer.WithClaimsAppends | api/rag/optimizer.py:147-150 | claims add exactly one issue, last, after the validator's issues in check order; the report fails and carries the claims |
| Optimizer.ClaimsAppendOneIssue | api/rag/prompts.py:642-645 | found claims make the response fail and add exactly one claims issue after the validator's, which come in check order and hold no claims entry |
| Optimizer.ClaimsPenaltyDoubled | api/rag/prompts.py:645 | the claims entry costs 0.3, not the 0.15 of the other issues: while the score stays positive it is 0.15 below what the issue count alone gives |
| Optimizer.ReportedClaims | api/rag/prompts.py:634-640 | the reported claims are exactly the claim types whose pattern occurs in the lowercased response, at most seven |
| Optimizer.LiveCopyFlagsEuroPrice | api/rag/prompts.py:487-505 | the copy the chain uses fails a response that quotes a price such as "70€" and reports it as a price in euros |
| Optimizer.SplitCopyMissesEuroPrice | api/rag/guardrails.py:119 | the validator optimizer.py calls never reports a price in euros for a response without "â", so "70,000€" goes unflagged. In Python the response must also lack "Â", which `lower()` maps to "â"; the model lowercases ASCII only (see "## Left out") |
| PromptTemplate.ExampleLabel | api/rag/prompts.py:190 | the live copy captions examples "Example" iff the language is "en" (otherwise "Ejemplo"); prompt_template.py always says "Example" |
| PromptTemplate.SystemPromptIndependent | api/rag/prompt_template.py:203-212 | neither the language nor the complexity changes the system prompt. It opens with the meta instructions and holds the three texts and two blank-line separators |
| PromptTemplate.ExampleBlocks | api/rag/prompts.py:192-208 | one formatted block per example, numbered from 1 in list order |
| PromptTemplate.ExampleNumbering | api/rag/prompt_template.py:221-223 | block k opens with the heading numbered k + 1 |
| PromptTemplate.FormatFewShotExamples | api/rag/prompts.py:187-209 | the loop's joined blocks are the few-shot text: the blocks in order joined by newlines |
| PromptTemplate.FewShotSection | api/rag/prompts.py:237-244 | the few-shot block is empty iff it was not requested, and opens with its header when it was |
| PromptTemplate.HistoryText | api/rag/prompts.py:251 | an empty history becomes "No prior conversation.", any other history is used as is, and the result is never empty |
| PromptTemplate.FullPromptParts | api/rag/prompt_template.py:289-321 | both copies build the prompt as the concatenation of the same ten parts |
| PromptTemplate.CopiesAgreeInEnglish | api/rag/prompt_template.py:215-218 | for English the two copies build the same prompt; they differ only in the example caption for other languages |
| PromptTemplate.PromptSections | api/rag/prompts.py:253-274 | the sections come in the fixed order: system prompt, blank line, few-shot block, context header, context, history header, history or its placeholder, question header, question, response cue |
| PromptTemplate.PromptLayout | api/rag/prompts.py:212-276 | each section sits unchanged at its offset in the full prompt, and the sections follow one another without overlap |
| PromptTemplate.ConcatLayout | api/rag/prompts.py:253-274 | each part of a concatenation sits unchanged at its offset and the parts do not overlap |
| PromptTemplate.AfterSystemPrompt | api/rag/prompts.py:253-256 | after the system prompt and its blank line come the few-shot section and then the other sections; without examples the context header comes next |
| PromptTemplate.FewShotPresence | api/rag/prompts.py:237-256 | the text after the system prompt and its blank line opens with the few-shot header iff examples were requested, and with the context header otherwise |

## Left out

- Database plumbing is not modelled: connections, reconnects, database creation and schema DDL in vector_store.py and reranker.py. The two tables are an abstract `Tables` value, and a failing INSERT is a `fails` predicate.
- `search_similar`, `document_exists`, `get_document_count`, `get_embedding_count` and `close` are not modelled, and neither is `VectorRetriever` (api/rag/retriever.py). pgvector's similarity order is outside the code; retrieval is a `Retriever` function parameter.
- The BM25 scorer (`rank_bm25.BM25Okapi`) is a foreign library. Its scores are a parameter aligned with the document cache.
- Calls to the language model and the embedding service are function parameters returning a value or an error. This covers their retries with exponential backoff and the `time.sleep` between batches; the model's temperature and token limit live inside the `Llm` parameter.
- The Redis backend (`RedisCache`) is network I/O and is not modelled.
- MD5 digests, for the cache key and for content hashes, are not computed. The cache key is the pre-hash string, whose injectivity is proved, and the content hash is an `md5` parameter.
- Clock readings are a `now` parameter. One query reads the clock once, so every stage duration recorded inside `query` is 0; `Metrics.MetricsCollector.MeasureStage` itself takes a start and an end reading.
- The LangChain `RecursiveCharacterTextSplitter` is a `Splitter` parameter, so chunk-size bounds are not stated. `PdfReader` page extraction and `glob` are inputs: each file's pages, or the error opening it raised, in sorted order.
- Float formatting is not modelled. `{similarity:.1%}` in the tiered context is a `Percent` parameter, and Python's `str()` of a float in configuration messages is a parameter too.
- Floating-point rounding is not modelled: scores are mathematical reals.
- `str.lower()`, `str.title()`, `str.split()` and `str.strip()` are modelled on ASCII letters and Python's white-space set. Case mapping of non-ASCII letters is the identity here.
- `\d` is ASCII 0-9: `PyText.IsDigit` accepts only those, whereas Python's `\d` on `str` patterns and `int()` also accept other Unicode decimal digits. This affects the `\[\d+\]` citation scan (`Guardrails.CitationsFrom`, `Guardrails.DigitRunLength`), the fabricated-claim patterns and the `^cv[-_]*\d*[-_]*` file-name prefix (`Loaders.PrefixEnd`).
- Issue messages are the `Guardrails.Issue` payloads, not their text: the model keeps which check fired and what it interpolates (the unused and phantom sets, the language, the word count, the found phrases), but not the message strings, Python's display of sets and lists, or the "max 600" wording that accompanies the 700-word threshold.
- The long constant prompt texts (meta instructions, domain knowledge, task instructions, few-shot examples) are an abstract `PromptTexts` value. The prompt layout around them is modelled exactly.
- Guardrails.DetectFabricatedClaims: each entry is the claim type alone, not the claim type followed by the list of `re.findall` matches. The model decides only whether each pattern occurs.
- The Prometheus path of metrics.py (counters, histograms, the HTTP server) is not modelled; the in-memory path is.
- `MetricsCollector.get_stats` is not modelled: it computes float averages and writes summaries into the collector's own duration lists through a shallow copy.
- `init_metrics`/`get_metrics` globals, logging, `PromptOptimizer.get_stats` (a constant dictionary) and `rerank_by_recency` (an identity stub) are not modelled.
- The application wiring is not modelled: FastAPI, CORS, startup and shutdown hooks, the embedder's `main`, `load_documents`, `show_stats` and `cleanup`. Reading environment variables is replaced by the settings values; only the boolean flag parsing is modelled.
- EmbedderSettings.Validate: whether the input directory exists is a boolean input.
- Postgres errors other than a refused embedding INSERT and a raising `get_document_info` are not modelled. This includes a failing document upsert inside `insert_embeddings`.
- Retrieved documents always carry a title, so the `"Sin título"` default the context formatting falls back to for a missing title is not modelled.

## Findings

| source | as written | input that shows it | evidently intended | confidence | as-written member | corrected member |
|---|---|---|---|---|---|---|
| api/rag/guardrails.py:119 | the euro pattern is `\d+[\s]*â‚¬`: the UTF-8 bytes of "€" decoded as cp1252 | the response "She earns 70,000€ a year." (the bad answer of the few-shot example at api/rag/prompts.py:145; `\d+[\s]*€` matches its "000€") is not flagged by the validator optimizer.py uses | `\d+[\s]*€`, as in api/rag/prompts.py:489 | high (not executed) | Optimizer.SplitCopyMissesEuroPrice | Optimizer.LiveCopyFlagsEuroPrice |
