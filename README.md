# Semantic insights: vector search and filtering, modelled in Dafny

This project models the search layer of the semantic-insights demo: coaching
transcripts are turned into structured insights by a language model, each
insight becomes an embedding record (searchable text, vector, five metadata
fields), the records are stored either in a local JSON file or in a Pinecone
index, and queries are answered by an exact dot-product scan (local) or by the
index (remote), filtered by business focus, participant and an urgency floor,
and annotated with a heuristic explanation.

Modules, one per source component:

- `Common` (common.dfy): Option, Python slicing (`s[:k]`), order-preserving
  filters, Python's `strip`/`split`/`lower`/`in`/`join`/`str(int)` on strings,
  and the dot product.
- `Records` (records.dfy): JSON values as they occur in metadata and filter
  dicts, insights and embedding records.
- `Ranking` (ranking.dfy): the stable descending sort used by
  `list.sort(key=..., reverse=True)`.
- `Matching` (matching.dfy): both `_explain_match` heuristics (four reasons in
  `src/vector_store.py`, three in `src/search_engine.py`) and a reader that
  recovers the reasons from a rendered explanation.
- `Store` (vector_store.dfy): the `VectorStore` class (backend choice with
  fallback to local, local filter/scan/delete/stats, Pinecone metadata
  truncation, batching, filter translation and result formatting).
- `Enhanced` (enhanced.dfy): `EnhancedSemanticSearchEngine`.
- `SemanticSearch` (search_engine.dfy): `SemanticSearchEngine` (validated load,
  top-k search).
- `Embeddings` (embeddings.dfy): `EmbeddingGenerator`.
- `App` (app.dfy): `normalize_urgency` and the 40-character overview cells.
- `Transcripts` (transcripts.dfy): `TranscriptProcessor`.

Python exceptions are modelled explicitly. Where the source catches them
(local search, Pinecone upsert/search/delete/stats) the model returns what the
handler returns (`[]`, `false`, a stats error). Where it does not (an
explanation calling `.lower()` on a non-string, a cosine similarity over
vectors of different lengths) the model returns `None`, meaning "raises to the
caller". Files are in-memory values (`LocalFile`, `EmbeddingsFile`); the
embedding service, the generative model, the JSON parser and the Pinecone
service are abstract functions passed in as parameters.

Behaviours of the code worth stating explicitly:

- A negative `top_k` is a Python slice bound and drops results from the tail;
  it does not yield `[]` (`Store.LocalSearchCount`).
- The four-reason explanation checks goal, challenge, business type, then
  mindset, in that order.
- Local vectors of the wrong length are not skipped by the store. One such
  candidate makes `np.dot` raise, and the whole local search returns `[]`
  (`Store.LocalSearchDimensionMismatch`).
- A corrupt embeddings file loads as `[]`, with a diagnostic in the loader's
  log.

Three behaviours of the code as written are stated as lemmas:

- An empty (or absent) `business_focus` always yields "Same business type",
  because `"" in query` holds for every query (`Matching.EmptyBusinessExplained`).
- The local filter compares strings case-insensitively, but the Pinecone
  filter sends the values verbatim for exact matching. The two backends agree
  on lower-case values (`Store.BackendsAgreeOnCanonicalValues`) and disagree
  on values that differ only in case (`Store.BackendsDisagreeOnCase`).
- `get_similar_participants` finds the subject case-insensitively but drops
  results only on exact name equality, so a case variant of the subject's name
  is found and yet not excluded (`Enhanced.CaseVariantNotExcluded`).

## Model

| member | source | states |
|---|---|---|
| Common.Take | src/vector_store.py:206 | `s[:k]`: a prefix of `s`; exactly min(k, len) elements for k ≥ 0, and len + k (at least 0) for a negative k |
| Store.MatchesTypedFilters | src/vector_store.py:222-239 | for well-typed values the filter is the conjunction of case-insensitive business equality, urgency ≥ floor with a missing urgency counting as 3, and case-insensitive participant equality; an absent key imposes nothing |
| Store.UnknownFilterKeysIgnored | src/vector_store.py:222-239 | keys other than business_focus, urgency_level and participant never change the outcome |
| Store.NonStringBusinessRaises | src/vector_store.py:226-228 | a non-string business filter value makes the check raise, whatever the other keys say |
| Store.UrgencyFloorExample | src/vector_store.py:230-233 | with floor 4, urgency 3 fails and urgency 5 passes, regardless of vectors |
| Store.FilterScan | src/vector_store.py:186-191 | the filtering loop succeeds exactly when no record makes the filter raise, and then keeps exactly the matching records in stored order |
| Store.ScoreScan | src/vector_store.py:195-200 | the scoring loop succeeds exactly when every vector has the query's length, and then pairs each record with its dot product in order |
| Store.LocalSearchNoData | src/vector_store.py:176-183 | a missing, unreadable or empty file gives `[]` |
| Store.LocalSearchSound | src/vector_store.py:185-214 | every result is a stored record of the query's length that passed the (non-empty) filter, scored by its dot product with the query |
| Store.LocalSearchCount | src/vector_store.py:203-206 | the result count is min(top_k, #survivors) for top_k ≥ 0 and #survivors + top_k (at least 0) for a negative top_k |
| Store.LocalSearchOrdered | src/vector_store.py:202-206 | scores never increase down the result list |
| Store.LocalRankingStable | src/vector_store.py:203 | among results with one score, the kept ones are the first of that score in stored order |
| Store.LocalRankingTopK | src/vector_store.py:202-206 | every survivor cut off scores no higher than every kept one |
| Store.LocalSearchZeroQuery | src/vector_store.py:193-206 | an all-zero query scores everything 0 and returns the first top_k survivors in stored order |
| Store.LocalSearchDimensionMismatch | src/vector_store.py:197-220 | one surviving vector whose length differs from the query's empties the whole result |
| Store.LocalSearchNoneMatch | src/vector_store.py:186-191 | a filter every record fails yields `[]` |
| Store.LocalSearchExample | src/vector_store.py:171-216 | records a=[1,0], b=[0,1], query [1,0], top_k 1 give exactly a with score 1 |
| Store.RemoveIdExact | src/vector_store.py:257 | delete keeps exactly the records with another id, in order, and distributes over concatenation |
| Store.RemoveAbsentId | src/vector_store.py:257 | deleting an absent id changes nothing |
| Store.DeleteIdempotent | src/vector_store.py:252-263 | deleting twice succeeds twice and leaves what deleting once left |
| Store.LocalStats | src/vector_store.py:283-304 | local stats: backend "local", the count of stored records, the first record's dimension (0 when empty or missing), an error when the file cannot be read |
| Store.StoreStatsOf | src/vector_store.py:269-282 | stats name the active backend; Pinecone reports dimension 768 and the index name |
| Store.TranslateFilters | src/vector_store.py:130-144 | the Pinecone filter has exactly the known keys present, business and participant as equality, urgency as `$gte`, and is `None` when nothing applies |
| Store.Truncated | src/vector_store.py:78-81 | `value[:n]` is the prefix of exactly min(n, length) characters: the value itself when short enough, n characters otherwise; it raises on non-strings |
| Store.RemoteMetadataLimits | src/vector_store.py:76-85 | upsert metadata has the eight keys; goal and blocker are exactly their first 500 characters, mindset its first 300, searchable text its first 1000; participant and timestamp as given; urgency defaults to 3, business focus to ""; it builds exactly when goal, blocker and mindset are strings |
| Store.UpsertedFilterFields | src/vector_store.py:77-82 | the business focus, urgency and participant reach Pinecone untruncated |
| Store.BatchesPartition | src/vector_store.py:93-97 | batches are non-empty, at most 100 long, all but the last full, and concatenate to the vector list in order |
| Store.SendBatches | src/vector_store.py:95-104 | the batches sent are a prefix of the batches, in order; success exactly when all were sent and accepted |
| Store.SendBatchesStops | src/vector_store.py:95-104 | every batch sent before the last was accepted, and on failure the last batch sent is the rejected one, so a rejection stops the loop |
| Store.RemoteUpsertComplete | src/vector_store.py:70-100 | a successful upsert sent every record once, in order, with its id and vector, in batches of at most 100 |
| Store.RemoteSearch | src/vector_store.py:147-169 | a failing query gives `[]`; every formatted result carries exactly the five metadata keys |
| Store.BackendsAgreeOnCanonicalValues | src/vector_store.py:130-137 | for lower-case strings and integer urgencies the local filter accepts a record exactly when the Pinecone filter accepts its upserted metadata |
| Store.BackendsDisagreeOnCase | src/vector_store.py:132-133 | a business value differing only in case passes locally but fails Pinecone's exact clause |
| Store.VectorStore.constructor | src/vector_store.py:23-56 | Pinecone is active exactly when requested, installed, keyed and its initialisation succeeds; otherwise local |
| Store.VectorStore.UpsertEmbeddings | src/vector_store.py:63-68 | local upsert replaces the file with the data; Pinecone upsert is the batched send; the backend never changes |
| Store.VectorStore.UpsertRemote | src/vector_store.py:70-104 | the metadata loop and the batch loop compute the batched send |
| Store.BuildVectors | src/vector_store.py:73-91 | the vector list is built exactly when every record's metadata can be built (a slice of `None` raises), and is then one vector per record in order |
| Store.SendAll | src/vector_store.py:93-97 | sends the vectors in consecutive batches of 100 and stops at the first batch the index rejects |
| Store.VectorStore.Search | src/vector_store.py:117-123 | search dispatches to the active backend |
| Store.VectorStore.SearchRemote | src/vector_store.py:125-169 | the formatting loop yields the formatted matches, `[]` when the query fails |
| Store.VectorStore.SearchLocal | src/vector_store.py:171-220 | the filter, score, sort and slice steps compute the local search |
| Store.VectorStore.DeleteById | src/vector_store.py:241-267 | local delete rewrites the file without the id (fails when unreadable); Pinecone delete reports the service's answer |
| Store.VectorStore.GetStats | src/vector_store.py:269-304 | stats report which backend is active |
| Ranking.SortDesc | src/vector_store.py:203 | the sort is a permutation ordered by non-increasing score |
| Ranking.SortDescStable | src/vector_store.py:203 | for every score, elements with that score keep their original order |
| Ranking.SortDescIdempotent | src/vector_store.py:373 | sorting a sorted list changes nothing |
| Matching.QueryWords | src/vector_store.py:340-343 | query words are non-empty and contain no whitespace |
| Matching.QueryWordsJoin | src/vector_store.py:340-343 | the query words are the query's words: lower-case words joined by single spaces split back into exactly those words |
| Common.SplitJoin | src/vector_store.py:340-343 | `" ".join(ws).split() == ws` for non-empty, whitespace-free words |
| Matching.WordCheck | src/vector_store.py:343 | a word check holds exactly when some query word is a substring of the lowered field; with no words it is false and never raises, otherwise it raises on a non-string |
| Matching.BusinessInQuery | src/vector_store.py:351 | the business check is substring containment of the whole lowered focus in the lowered query |
| Matching.WordMatchIsSubstring | src/vector_store.py:343 | containment, not token equality: "sale" matches "More Sales" |
| Matching.EmptyBusinessAlwaysMatches | src/vector_store.py:351 | an empty business focus is contained in every query |
| Matching.EmptyBusinessExplained | src/vector_store.py:350-352 | an empty or absent business focus always yields "Same business type" |
| Matching.ExplainLists | src/vector_store.py:335-361 | the explanation lists exactly the checks that hold, in the order goal, challenge, business type, mindset, joined by " + "; it is "Semantic similarity" exactly when none holds |
| Matching.ReasonsRender | src/vector_store.py:358-361 | a rendered explanation determines its reasons and their order; "Semantic similarity" means no reason |
| Matching.ExplainThreeLists | src/search_engine.py:85-103 | the three-reason explanation lists goal, challenge, business type as they hold, with "Semantic similarity" exactly when none does |
| Matching.ThreeReasonsDropMindset | src/search_engine.py:85-103 | the three-reason variant never mentions mindset and otherwise equals the four-reason one |
| Enhanced.Explained | src/vector_store.py:329-331 | every result gets its explanation, in order; one raising explanation makes the search raise |
| Enhanced.UnionMember | src/vector_store.py:367-370 | every hit of the union comes from the search for one of the business types |
| Enhanced.UnionCovers | src/vector_store.py:367-370 | every hit of every business type's search is in the union |
| Enhanced.BusinessFilterSound | src/vector_store.py:363-374 | on the local backend every hit's business focus equals one requested type up to case |
| Enhanced.BusinessFilterRanked | src/vector_store.py:372-374 | the result is a best top_k of the union: drawn from the union (as a multiset), by non-increasing score, min(top_k, total) of them for top_k ≥ 0, and no dropped hit scores above a kept one |
| Enhanced.UrgencySearchSound | src/vector_store.py:376-379 | on the local backend every hit's urgency (3 when missing) is at least the floor |
| Enhanced.SimilarParticipantsExclude | src/vector_store.py:381-398 | no hit is named exactly like the subject, and there are at most top_k |
| Enhanced.UnknownSubject | src/vector_store.py:384-388 | a subject no stored record is named after (up to case) yields `[]` |
| Enhanced.CaseVariantNotExcluded | src/vector_store.py:384-398 | a case variant of the subject's name passes the lookup filter and also survives the exclusion |
| Enhanced.DegradedSearchEmpty | src/vector_store.py:317-327 | without the embedding service, the 768-long zero query finds nothing in a store of another dimension |
| Enhanced.DegradedSearchStoredOrder | src/vector_store.py:317-327 | without the embedding service, every score is 0 and hits follow stored order |
| Enhanced.EnhancedSemanticSearchEngine.constructor | src/vector_store.py:311-315 | a fresh generator (dimension 768) and a fresh store with the backend choice |
| Enhanced.EnhancedSemanticSearchEngine.Search | src/vector_store.py:317-333 | embed, search the store, explain every hit |
| Enhanced.EnhancedSemanticSearchEngine.SearchWithBusinessFilter | src/vector_store.py:363-374 | the loop builds the per-type union, then sorts and cuts to top_k |
| Enhanced.EnhancedSemanticSearchEngine.SearchByUrgency | src/vector_store.py:376-379 | a search with only the urgency floor |
| Enhanced.EnhancedSemanticSearchEngine.GetSimilarParticipants | src/vector_store.py:381-398 | lookup, `[]` when not found, then a search on goal and blocker with the exact-name exclusion |
| SemanticSearch.Load | src/search_engine.py:25-57 | a loaded list is empty or starts with a non-empty vector, and every kept record has the first record's length |
| SemanticSearch.LoadKeepsFirst | src/search_engine.py:39-49 | the first record always survives validation |
| SemanticSearch.SkipsPartition | src/search_engine.py:45-53 | each record is either kept or reported, never both, and every warning names the expected and found lengths |
| SemanticSearch.LoadAccounts | src/search_engine.py:45-54 | kept plus skipped equals the records read, and every record of the first record's length is kept |
| SemanticSearch.LoadKeepsOrder | src/search_engine.py:45-54 | the kept records stay in file order: those kept from an earlier part of the file come before those kept from a later part |
| SemanticSearch.LoadAllValid | src/search_engine.py:45-54 | a file whose vectors all have the first record's length loads whole and in order |
| SemanticSearch.LoadEmbeddings | src/search_engine.py:25-57 | the validation loop computes the load: `[]` for a missing, empty or corrupt file, an empty list or an empty first vector |
| Ranking.SortedPrefixIsTopK | src/search_engine.py:71 | the first top_k of a descending sort are a best top_k in non-increasing score order |
| SemanticSearch.FallbackQueryFits | src/search_engine.py:18-22 | after the dimension sync the zero fallback query has the loaded records' length |
| SemanticSearch.SemanticSearchEngine.constructor | src/search_engine.py:14-23 | the generator's dimension becomes the first loaded record's length, 768 when nothing loaded |
| SemanticSearch.SemanticSearchEngine.Search | src/search_engine.py:59-83 | `[]` with no data; raises on a length mismatch; otherwise an explained best top_k by cosine score in non-increasing order |
| Embeddings.Embed | src/embedding_generator.py:46-58 | the service's vector, or the zero vector of length embedding_dim when unavailable or failing |
| Embeddings.FallbackIsConstant | src/embedding_generator.py:48-49 | without the service every text gets the same vector, which scores 0 against any vector of its length |
| Embeddings.SearchableTextLayout | src/embedding_generator.py:29-44 | the text is "Goal", "Main challenge", "Business", "Mindset", "Current stage" in order, joined by a space-bar-space separator, followed by the list parts when present |
| Embeddings.SecondaryBlockersAppended | src/embedding_generator.py:38-40 | a non-empty secondary-blocker list appends "Other challenges: " and the items joined by ", " |
| Embeddings.EmotionsAppended | src/embedding_generator.py:41-43 | a non-empty emotion list appends "Emotions: " and the items joined by ", ", last |
| Embeddings.RecordMetadata | src/embedding_generator.py:79-85 | record metadata has exactly the five keys, each the insight's field or `None` |
| Embeddings.EmbeddingGenerator.constructor | src/embedding_generator.py:10-17 | embedding_dim starts at 768; the service is available when configuration and the test call succeed |
| Embeddings.EmbeddingGenerator.GenerateEmbedding | src/embedding_generator.py:46-58 | computes the embedding with its zero-vector fallback |
| Embeddings.EmbeddingGenerator.BuildRecord | src/embedding_generator.py:72-86 | the record of one insight: its id, participant, searchable text, that text's embedding and its metadata |
| Embeddings.RecordsAt | src/embedding_generator.py:70-87 | there are as many records as insights, and record i is the record of insight i |
| Embeddings.EmbeddingGenerator.ProcessAllInsights | src/embedding_generator.py:60-92 | without the service, the existing embeddings; otherwise one record per insight in order, with its id, participant, searchable text, embedding and metadata |
| App.ParseSignedRun | app.py:24-25 | a leading "-" or "+" before a run of digits gives the negated or the plain value of the digits |
| App.ParseIntRoundTrip | app.py:24-25 | `int(str(n)) == n` for the modelled `int()` |
| App.NumericStringAgrees | app.py:19-25 | an int and its decimal string normalise to that int |
| App.OutOfScaleExample | app.py:14-37 | the int 7 stays 7 (no clamping to 1–5) and "" normalises to 3 |
| App.UnderscoreExample | app.py:24-25 | "1_0" normalises to 10, as `int()` accepts it |
| App.NormalizeUrgency | app.py:14-37 | `None` is 3, an int is returned unchanged, a string `int()` accepts gives its value, and anything else gives 1, 3 or 5 |
| App.LabelValue | app.py:30-37 | the lookup is the `mapping` dict ("low" 1, "medium" 3, "high"/"urgent"/"critical" 5) with default 3, so it yields 1, 3 or 5 |
| App.NonNumericInScale | app.py:16-37 | `None` normalises to 3; any other non-numeric value to the `mapping` entry of its stripped, lower-cased text, 3 when that text is no label; so always 1, 3 or 5 |
| App.LabelsIgnoreCase | app.py:37 | labels match after strip and lower-casing |
| App.PaddedLabelExample | app.py:37 | " HIGH " normalises to 5 |
| App.UrgencyCellReadsBack | app.py:258 | the urgency cell is the normalised value followed by "/5" and reads back as it |
| App.Truncate | app.py:248-257 | a cell is at most 43 characters |
| App.TruncateShape | app.py:248-257 | over 40 characters shows the first 40 plus "..."; otherwise the text unchanged |
| App.TruncateIdempotent | app.py:248-257 | truncating a cell again changes nothing |
| App.DisplayCell | app.py:248-257 | an absent field shows "Unknown", a string its truncation; `None` or a number raises |
| Transcripts.NoClientUnavailable | src/transcript_processor.py:22-23 | with no client the API is unavailable |
| Transcripts.PromptQuotesTranscript | src/transcript_processor.py:52-66 | the prompt contains the transcript text whole |
| Transcripts.PromptInjective | src/transcript_processor.py:52-66 | different transcript texts give different prompts |
| Transcripts.CleanJsonFence | src/transcript_processor.py:70-72 | a reply fenced as ```json … ``` cleans to its body |
| Transcripts.CleanUnfenced | src/transcript_processor.py:70-72 | a reply without backticks is only stripped |
| Transcripts.Merge | src/transcript_processor.py:75-79 | the merged dict has the extracted keys plus id and participant, and the extracted fields win on a collision |
| Transcripts.SkipFailure | src/transcript_processor.py:82-84 | a failing transcript leaves no trace and does not stop the others |
| Transcripts.ExtractAllAppend | src/transcript_processor.py:49-84 | transcripts are processed independently, results in transcript order |
| Transcripts.ExtractAllCount | src/transcript_processor.py:49-84 | at most one result per transcript, exactly one each when none fails |
| Transcripts.NoClientNoResults | src/transcript_processor.py:67-68 | without a model every extraction fails |
| Transcripts.TranscriptProcessor.constructor | src/transcript_processor.py:10-18 | a configuration failure leaves no client; otherwise availability is the test call's success |
| Transcripts.TranscriptProcessor.ProcessAllTranscripts | src/transcript_processor.py:40-89 | the local insights when unavailable; otherwise the skip-and-continue extraction of every transcript |

## Left out

- File I/O: the embeddings, insights and transcripts files are values (`LocalFile`, `EmbeddingsFile`, sequences); `os.path.exists`/`getsize` become the file's cases. The writes at the end of `process_all_insights` and `process_all_transcripts` are not modelled, and the local upsert's write is assumed to succeed.
- The Pinecone SDK (`list_indexes`, `create_index`, `Index`, `upsert`, `query`, `delete`, `describe_index_stats`) is a `RemoteIndex` value of abstract functions; index creation is folded into its `initOk` flag, and remote scores come from the service.
- The Gemini embedding and generation calls and `json.loads` are abstract partial functions; the availability checks are their result on "test".
- `Config.PINECONE_API_KEY` and `PINECONE_ENVIRONMENT` are not defined in src/config.py; the key is an explicit optional parameter of the constructor.
- The `created_at` timestamp (`datetime.now()`) is a parameter; logging, `print` and Streamlit messages are dropped, except the loader's diagnostics in `SemanticSearch`.
- Floating point: vectors are sequences of reals, the dot product is exact, and scikit-learn's cosine similarity is an abstract function.
- SemanticSearch.SemanticSearchEngine.Search: the order among equal scores is not stated, because `np.argsort` is not stable; only the best-top-k property is.
- Case folding is ASCII-only (`Lower`); Python's `lower()` also folds other Unicode letters. `int()` is modelled on ASCII digits only.
- JSON floats and booleans are not modelled as metadata values; arrays and objects share one `Other` case, so a list-valued goal or blocker, which Python could slice or measure, is treated as raising (`Store.Truncated`, `App.DisplayCell`).
- Records and transcripts are typed. A record without an `id`, `embedding`, `participant`, `searchable_text` or `metadata` is not modelled; the source raises `KeyError` on one (src/vector_store.py:77-89). Nor are a non-dict entry or a top-level dict without an `"embeddings"` key, which the source indexes and crashes on.
- The list fields of an insight (`secondary_blockers`, `key_emotions`) are typed `seq<string>`; the source would join any iterable of strings there and raise on other items (src/embedding_generator.py:38-43).
- The Streamlit UI in `app.py` beyond the two overview-table helpers, and all of run_vector_store.py, are not part of this model.
